/**
 * The lookup, formatting and context helpers of IkaUtils
 * (ikalog/utils/ikautils.py): language fallback and id-to-text lookups,
 * the local player's entry and fes title, per-game event recording, output
 * file names and the sanitised context copy.
 */
module IkaUtils {
  import opened Wrappers

  // ---------------------------------------------------------------------
  // Player entries

  /** One row of the result scoreboard. A key that is missing from the
      source's dictionary is `None` here. */
  datatype Entry = Entry(
    me: bool,
    score: Option<int>,
    kills: Option<int>,
    deaths: Option<int>,
    udemaePre: Option<string>,
    gender: Option<string>,
    prefix: Option<string>)

  /** `i` is the index of the first entry flagged as the local player. */
  ghost predicate IsFirstMe(players: seq<Entry>, i: int) {
    0 <= i < |players| && players[i].me && forall j :: 0 <= j < i ==> !players[j].me
  }

  function FirstMe(players: seq<Entry>): (r: Option<Entry>)
    ensures r.None? <==> forall i :: 0 <= i < |players| ==> !players[i].me
    ensures r.Some? ==> exists i :: IsFirstMe(players, i) && r.value == players[i]
  {
    if players == [] then None
    else if players[0].me then
      assert IsFirstMe(players, 0);
      Some(players[0])
    else
      var r := FirstMe(players[1..]);
      if r.Some? then
        FirstMeShifted(players, r.value);
        r
      else
        assert forall i :: 1 <= i < |players| ==> players[i] == players[1..][i - 1];
        r
  }

  lemma FirstMeShifted(players: seq<Entry>, e: Entry)
    requires players != [] && !players[0].me
    requires exists i :: IsFirstMe(players[1..], i) && e == players[1..][i]
    ensures exists i :: IsFirstMe(players, i) && e == players[i]
  {
    var i :| IsFirstMe(players[1..], i) && e == players[1..][i];
    assert IsFirstMe(players, i + 1);
  }

  /** getMyEntryFromContext: the first player entry whose `me` flag is set;
      none when `players` is missing or empty or nobody is flagged. */
  function MyEntry(players: Option<seq<Entry>>): (r: Option<Entry>)
    ensures r.None? <==> players.None? || forall i :: 0 <= i < |players.value| ==> !players.value[i].me
    ensures r.Some? ==> players.Some? && exists i :: IsFirstMe(players.value, i) && r.value == players.value[i]
  {
    if players.None? || players.value == [] then None else FirstMe(players.value)
  }

  /** HIRAGANA LETTER NO, which `playerTitle` strips from the title prefix. */
  const No: char := '\U{306E}'

  /** `s` with every occurrence of `c` removed, order kept. */
  function RemoveChar(s: string, c: char): (r: string)
    ensures c !in r
    ensures |r| <= |s|
    ensures forall x :: x != c ==> multiset(r)[x] == multiset(s)[x]
  {
    if s == [] then []
    else
      assert s == [s[0]] + s[1..];
      if s[0] == c then RemoveChar(s[1..], c) else [s[0]] + RemoveChar(s[1..], c)
  }

  /** Removing a character from a concatenation removes it from each part,
      so the characters that remain keep their order. */
  lemma {:induction false} RemoveCharAppend(a: string, b: string, c: char)
    ensures RemoveChar(a + b, c) == RemoveChar(a, c) + RemoveChar(b, c)
  {
    if a == [] {
      assert a + b == b;
    } else {
      assert (a + b)[0] == a[0] && (a + b)[1..] == a[1..] + b;
      RemoveCharAppend(a[1..], b, c);
    }
  }

  /** A string without the character is left as it is. */
  lemma {:induction false} RemoveCharAbsent(s: string, c: char)
    requires c !in s
    ensures RemoveChar(s, c) == s
  {
    if s != [] {
      assert s == [s[0]] + s[1..];
      RemoveCharAbsent(s[1..], c);
    }
  }

  /** playerTitle: the fes title, present exactly when the entry exists and
      carries both a gender and a prefix; it is the prefix without any
      'の' followed by the gender. */
  function PlayerTitle(entry: Option<Entry>): (r: Option<string>)
    ensures r.Some? <==> entry.Some? && entry.value.gender.Some? && entry.value.prefix.Some?
    ensures r.Some? ==>
      var gender := entry.value.gender.value;
      var prefix := entry.value.prefix.value;
      var cut := |r.value| - |gender|;
      0 <= cut && r.value[cut..] == gender && r.value[..cut] == RemoveChar(prefix, No)
      && No !in r.value[..cut]
      && forall x :: x != No ==> multiset(r.value[..cut])[x] == multiset(prefix)[x]
  {
    if entry.None? || entry.value.gender.None? || entry.value.prefix.None? then None
    else
      var stripped := RemoveChar(entry.value.prefix.value, No);
      var title := stripped + entry.value.gender.value;
      assert title[..|stripped|] == stripped;
      Some(title)
  }

  /** getWinLoseText: the unknown text when the outcome is not known,
      otherwise the win or the lose text. */
  function WinLoseText(won: Option<bool>, winText: string, loseText: string, unknownText: string): (r: string)
    ensures won.None? ==> r == unknownText
    ensures won == Some(true) ==> r == winText
    ensures won == Some(false) ==> r == loseText
  {
    match won
    case None => unknownText
    case Some(w) => if w then winText else loseText
  }

  // ---------------------------------------------------------------------
  // Language fallback and id-to-text lookups

  /** The `languages` argument of the lookups: omitted, a single language,
      or a list. */
  datatype LanguageArg = DefaultLanguages | Language(code: string) | Languages(codes: seq<string>)

  const FallbackLanguages: seq<string> := ["en", "ja"]

  /** The language list as the caller gave it; a single language becomes a
      one-element list, an omitted one the localisation defaults. */
  function Requested(arg: LanguageArg, defaults: seq<string>): seq<string> {
    match arg
    case DefaultLanguages => defaults
    case Language(c) => [c]
    case Languages(cs) => cs
  }

  /** extend_languages: the requested languages, in the caller's order,
      followed by exactly 'en' and 'ja'. */
  function ExtendedLanguages(arg: LanguageArg, defaults: seq<string>): (r: seq<string>)
    ensures |r| == |Requested(arg, defaults)| + 2
    ensures r[..|r| - 2] == Requested(arg, defaults) && r[|r| - 2..] == FallbackLanguages
    ensures arg.Language? ==> r[0] == arg.code
  {
    Requested(arg, defaults) + FallbackLanguages
  }

  /** A caller-owned list of language codes. */
  class LanguageList {
    var items: seq<string>

    constructor (items: seq<string>)
      ensures this.items == items
    {
      this.items := items;
    }
  }

  /** extend_languages on a list argument: the caller's own list object is
      extended in place and handed back. */
  method ExtendLanguageList(list: LanguageList) returns (r: LanguageList)
    modifies list
    ensures r == list
    ensures list.items == old(list.items) + FallbackLanguages
  {
    list.items := list.items + FallbackLanguages;
    r := list;
  }

  /** `i` is the first position of `langs` that has a text in `texts`. */
  ghost predicate IsFirstAvailable(texts: map<string, string>, langs: seq<string>, i: int) {
    0 <= i < |langs| && langs[i] in texts && forall j :: 0 <= j < i ==> langs[j] !in texts
  }

  /** The text of the first language in `langs` that `texts` has. */
  function FirstText(texts: map<string, string>, langs: seq<string>): (r: Option<string>)
    ensures r.None? <==> forall i :: 0 <= i < |langs| ==> langs[i] !in texts
    ensures r.Some? ==> exists i :: IsFirstAvailable(texts, langs, i) && r.value == texts[langs[i]]
  {
    if langs == [] then None
    else if langs[0] in texts then
      assert IsFirstAvailable(texts, langs, 0);
      Some(texts[langs[0]])
    else
      var r := FirstText(texts, langs[1..]);
      if r.Some? then
        FirstAvailableShifted(texts, langs, r.value);
        r
      else
        assert forall i :: 1 <= i < |langs| ==> langs[i] == langs[1..][i - 1];
        r
  }

  lemma FirstAvailableShifted(texts: map<string, string>, langs: seq<string>, t: string)
    requires langs != [] && langs[0] !in texts
    requires exists i :: IsFirstAvailable(texts, langs[1..], i) && t == texts[langs[1..][i]]
    ensures exists i :: IsFirstAvailable(texts, langs, i) && t == texts[langs[i]]
  {
    var i :| IsFirstAvailable(texts, langs[1..], i) && t == texts[langs[1..][i]];
    assert IsFirstAvailable(texts, langs, i + 1);
  }

  /** The first available position is unique. */
  lemma FirstAvailableUnique(texts: map<string, string>, langs: seq<string>, i: int, j: int)
    requires IsFirstAvailable(texts, langs, i) && IsFirstAvailable(texts, langs, j)
    ensures i == j
  {
  }

  /** Looking through two lists in turn is looking through the first, then
      through the second if the first had nothing. */
  lemma {:induction false} FirstTextAppend(texts: map<string, string>, a: seq<string>, b: seq<string>)
    ensures FirstText(texts, a + b) == if FirstText(texts, a).Some? then FirstText(texts, a) else FirstText(texts, b)
  {
    if a == [] {
      assert a + b == b;
    } else {
      assert (a + b)[0] == a[0];
      assert (a + b)[1..] == a[1..] + b;
      if a[0] !in texts {
        FirstTextAppend(texts, a[1..], b);
        assert FirstText(texts, a + b) == FirstText(texts, a[1..] + b);
        assert FirstText(texts, a) == FirstText(texts, a[1..]);
      }
    }
  }

  /** The lookups extend a caller-supplied list in place, so a list passed
      twice has already been extended once; the second extension never
      changes the text found. */
  lemma ReextendingKeepsText(texts: map<string, string>, langs: seq<string>)
    ensures FirstText(texts, langs + FallbackLanguages + FallbackLanguages)
         == FirstText(texts, langs + FallbackLanguages)
  {
    FirstTextAppend(texts, FallbackLanguages, FallbackLanguages);
    assert langs + FallbackLanguages + FallbackLanguages == langs + (FallbackLanguages + FallbackLanguages);
    FirstTextAppend(texts, langs, FallbackLanguages + FallbackLanguages);
    FirstTextAppend(texts, langs, FallbackLanguages);
  }

  /** A text table: id -> language -> text (the stages, rules, weapons, ...
      constants). */
  type Table = map<string, map<string, string>>

  /** The constant tables the lookups read. */
  datatype Tables = Tables(
    stages: Table,
    rules: Table,
    gearAbilities: Table,
    weapons: Table,
    subWeapons: Table,
    specialWeapons: Table,
    oobReasons: Table,
    hurtableObjects: Table,
    lobbyTypes: Table)

  /** The shape of map2text and rule2text: `unknown` for a missing id or one
      the table lacks; otherwise the text of the first language of the
      extended list that the entry has; the id itself if it has none. */
  function IdToText(table: Table, id: Option<string>, unknown: string, languages: LanguageArg, defaults: seq<string>): (r: string)
    ensures id.None? || id.value !in table ==> r == unknown
    ensures id.Some? && id.value in table ==>
      var langs := ExtendedLanguages(languages, defaults);
      && (forall i :: IsFirstAvailable(table[id.value], langs, i) ==> r == table[id.value][langs[i]])
      && ((forall i :: 0 <= i < |langs| ==> langs[i] !in table[id.value]) ==> r == id.value)
  {
    if id.None? || id.value !in table then unknown
    else
      var langs := ExtendedLanguages(languages, defaults);
      var found := FirstText(table[id.value], langs);
      if found.Some? then
        forall i | IsFirstAvailable(table[id.value], langs, i)
          ensures found.value == table[id.value][langs[i]]
        {
          var k :| IsFirstAvailable(table[id.value], langs, k) && found.value == table[id.value][langs[k]];
          FirstAvailableUnique(table[id.value], langs, i, k);
        }
        found.value
      else id.value
  }

  /** A known id whose entry lacks every requested language still gets its
      English text, or its Japanese text when there is no English one. */
  lemma FallbackToEnglishThenJapanese(table: Table, id: string, unknown: string, languages: LanguageArg, defaults: seq<string>)
    requires id in table
    requires forall l :: l in Requested(languages, defaults) ==> l !in table[id]
    requires "en" in table[id] || "ja" in table[id]
    ensures IdToText(table, Some(id), unknown, languages, defaults)
         == if "en" in table[id] then table[id]["en"] else table[id]["ja"]
  {
    var req := Requested(languages, defaults);
    var langs := ExtendedLanguages(languages, defaults);
    var n := |req|;
    assert forall j :: 0 <= j < n ==> langs[j] == req[j];
    assert langs[n] == "en" && langs[n + 1] == "ja";
    if "en" in table[id] {
      assert IsFirstAvailable(table[id], langs, n);
    } else {
      assert IsFirstAvailable(table[id], langs, n + 1);
    }
  }

  function MapToText(t: Tables, mapId: Option<string>, unknown: string, languages: LanguageArg, defaults: seq<string>): string {
    IdToText(t.stages, mapId, unknown, languages, defaults)
  }

  function RuleToText(t: Tables, ruleId: Option<string>, unknown: string, languages: LanguageArg, defaults: seq<string>): string {
    IdToText(t.rules, ruleId, unknown, languages, defaults)
  }

  /** What an evaluation in the source produces: a value, or the NameError
      raised by a reference to an undefined name. */
  datatype Evaluation<T> = Value(value: T) | NameError

  /** gear_ability2text as written: its last-resort return refers to an
      undefined name, so a known ability whose entry has none of the
      extended languages raises NameError instead of returning. */
  function GearAbilityToTextAsWritten(t: Tables, ability: Option<string>, unknown: string, languages: LanguageArg, defaults: seq<string>): (r: Evaluation<string>)
    ensures r.NameError? <==>
      ability.Some? && ability.value in t.gearAbilities &&
      FirstText(t.gearAbilities[ability.value], ExtendedLanguages(languages, defaults)).None?
    ensures r.Value? ==> r.value == IdToText(t.gearAbilities, ability, unknown, languages, defaults)
  {
    if ability.None? || ability.value !in t.gearAbilities then Value(unknown)
    else
      match FirstText(t.gearAbilities[ability.value], ExtendedLanguages(languages, defaults))
      case Some(text) => Value(IdToText(t.gearAbilities, ability, unknown, languages, defaults))
      case None => NameError
  }

  /** gear_ability2text as evidently intended: like map2text, it never raises
      and falls back to the ability id. */
  function GearAbilityToText(t: Tables, ability: Option<string>, unknown: string, languages: LanguageArg, defaults: seq<string>): (r: string)
    ensures ability.None? || ability.value !in t.gearAbilities ==> r == unknown
    ensures ability.Some? && ability.value in t.gearAbilities &&
            FirstText(t.gearAbilities[ability.value], ExtendedLanguages(languages, defaults)).None?
            ==> r == ability.value
    ensures GearAbilityToTextAsWritten(t, ability, unknown, languages, defaults).Value? ==>
            r == GearAbilityToTextAsWritten(t, ability, unknown, languages, defaults).value
  {
    IdToText(t.gearAbilities, ability, unknown, languages, defaults)
  }

  /** An ability known only in French, asked for in German: the source
      raises, the corrected lookup answers with the id. */
  lemma GearAbilityFallbackRaises()
    ensures
      var t := Tables(map[], map[], map["ninja_squid" := map["fr" := "Ninja Calamar"]],
                      map[], map[], map[], map[], map[], map[]);
      && GearAbilityToTextAsWritten(t, Some("ninja_squid"), "?", Language("de"), []).NameError?
      && GearAbilityToText(t, Some("ninja_squid"), "?", Language("de"), []) == "ninja_squid"
  {
    var t := Tables(map[], map[], map["ninja_squid" := map["fr" := "Ninja Calamar"]],
                    map[], map[], map[], map[], map[], map[]);
    var langs := ExtendedLanguages(Language("de"), []);
    assert langs == ["de", "en", "ja"];
    assert FirstText(t.gearAbilities["ninja_squid"], langs).None?;
  }

  /** The shape of weapon2text and lobby2text: the text of the first
      language of the extended list that the id's entry has, `unknown` when
      the table lacks the id or the entry has none of them. */
  function EntryText(table: Table, id: string, unknown: string, languages: LanguageArg, defaults: seq<string>): (r: string)
    ensures id !in table ==> r == unknown
    ensures id in table ==>
      var langs := ExtendedLanguages(languages, defaults);
      && (forall i :: IsFirstAvailable(table[id], langs, i) ==> r == table[id][langs[i]])
      && ((forall i :: 0 <= i < |langs| ==> langs[i] !in table[id]) ==> r == unknown)
  {
    TextOrUnknown(if id in table then table[id] else map[], unknown, ExtendedLanguages(languages, defaults))
  }

  /** The text of the first language of `langs` that `texts` has, else `unknown`. */
  function TextOrUnknown(texts: map<string, string>, unknown: string, langs: seq<string>): (r: string)
    ensures (forall i :: 0 <= i < |langs| ==> langs[i] !in texts) ==> r == unknown
    ensures forall i :: IsFirstAvailable(texts, langs, i) ==> r == texts[langs[i]]
  {
    var found := FirstText(texts, langs);
    if found.None? then unknown
    else
      forall i | IsFirstAvailable(texts, langs, i) ensures found.value == texts[langs[i]] {
        var k :| IsFirstAvailable(texts, langs, k) && found.value == texts[langs[k]];
        FirstAvailableUnique(texts, langs, i, k);
      }
      found.value
  }

  function WeaponToText(t: Tables, weapon: string, unknown: string, languages: LanguageArg, defaults: seq<string>): string {
    EntryText(t.weapons, weapon, unknown, languages, defaults)
  }

  function LobbyToText(t: Tables, lobby: string, unknown: string, languages: LanguageArg, defaults: seq<string>): string {
    EntryText(t.lobbyTypes, lobby, unknown, languages, defaults)
  }

  /** The texts death_reason2text looks a reason up in: those of the
      highest-precedence table that has it (hurtable objects, then
      out-of-bounds reasons, special weapons, sub weapons, weapons), or
      none. */
  function DeathReasonTexts(t: Tables, reason: string): (d: map<string, string>)
    ensures reason in t.hurtableObjects ==> d == t.hurtableObjects[reason]
    ensures reason !in t.hurtableObjects && reason in t.oobReasons ==> d == t.oobReasons[reason]
    ensures reason !in t.hurtableObjects && reason !in t.oobReasons && reason in t.specialWeapons
            ==> d == t.specialWeapons[reason]
    ensures (reason !in t.hurtableObjects && reason !in t.oobReasons && reason !in t.specialWeapons
             && reason in t.subWeapons) ==> d == t.subWeapons[reason]
    ensures (reason !in t.hurtableObjects && reason !in t.oobReasons && reason !in t.specialWeapons
             && reason !in t.subWeapons) ==> d == if reason in t.weapons then t.weapons[reason] else map[]
  {
    var d0 := if reason in t.weapons then t.weapons[reason] else map[];
    var d1 := if reason in t.subWeapons then t.subWeapons[reason] else d0;
    var d2 := if reason in t.specialWeapons then t.specialWeapons[reason] else d1;
    var d3 := if reason in t.oobReasons then t.oobReasons[reason] else d2;
    if reason in t.hurtableObjects then t.hurtableObjects[reason] else d3
  }

  /** death_reason2text: the text of the first extended language in the
      texts of the highest-precedence table holding the reason; `unknown`
      when no table holds it or none of the languages is there. */
  function DeathReasonToText(t: Tables, reason: string, unknown: string, languages: LanguageArg, defaults: seq<string>): (r: string)
    ensures
      var langs := ExtendedLanguages(languages, defaults);
      var texts := DeathReasonTexts(t, reason);
      && ((forall i :: 0 <= i < |langs| ==> langs[i] !in texts) ==> r == unknown)
      && (forall i :: IsFirstAvailable(texts, langs, i) ==> r == texts[langs[i]])
  {
    TextOrUnknown(DeathReasonTexts(t, reason), unknown, ExtendedLanguages(languages, defaults))
  }

  // ---------------------------------------------------------------------
  // Game clock offsets and events

  /** Python truthiness of an optional number: present and non-zero. */
  predicate Truthy(x: Option<int>) {
    x.Some? && x.value != 0
  }

  /** get_game_offset_msec: the playback time since the game started; none
      unless both the playback time and the start offset are truthy (0
      counts as missing). */
  function GameOffsetMsec(msec: Option<int>, startOffsetMsec: Option<int>): (r: Option<int>)
    ensures r.Some? <==> Truthy(msec) && Truthy(startOffsetMsec)
    ensures r.Some? ==> r.value + startOffsetMsec.value == msec.value
  {
    if Truthy(msec) && Truthy(startOffsetMsec) then Some(msec.value - startOffsetMsec.value) else None
  }

  /** One recorded event: the game time it happened at and its value. */
  datatype Event<V> = Event(time: Option<int>, value: V)

  /** The event lists after add_event records `value` under `key` at `time`:
      that key's list gains at most one entry; its last entry becomes
      (time, value); it keeps its length exactly when its old last entry had
      the same time, in which case only that entry's value is replaced; the
      earlier entries and every other key are unchanged. */
  function WithEvent<V>(events: map<string, seq<Event<V>>>, key: string, time: Option<int>, value: V): (r: map<string, seq<Event<V>>>)
    ensures r.Keys == events.Keys + {key}
    ensures forall k :: k in events && k != key ==> r[k] == events[k]
    ensures
      var before := if key in events then events[key] else [];
      var after := r[key];
      && (|after| == |before| || |after| == |before| + 1)
      && (|after| == |before| <==> before != [] && before[|before| - 1].time == time)
      && after[|after| - 1] == Event(time, value)
      && after[..|after| - 1] == if |after| == |before| then before[..|before| - 1] else before
  {
    var list := if key in events then events[key] else [];
    if list != [] && list[|list| - 1].time == time then
      events[key := list[..|list| - 1] + [Event(time, value)]]
    else
      events[key := list + [Event(time, value)]]
  }

  // ---------------------------------------------------------------------
  // Output file names

  /** Index of the last occurrence of `c` in `s`, or -1. */
  function LastIndex(s: string, c: char): (k: int)
    ensures -1 <= k < |s|
    ensures k >= 0 ==> s[k] == c
    ensures forall j :: k < j < |s| ==> s[j] != c
  {
    if s == [] then -1
    else if s[|s| - 1] == c then |s| - 1
    else LastIndex(s[..|s| - 1], c)
  }

  /** Searching a concatenation from the right finds the occurrence in the
      right part if there is one, else the one in the left part. */
  lemma {:induction false} LastIndexAppend(a: string, b: string, c: char)
    ensures LastIndex(a + b, c) == if c in b then |a| + LastIndex(b, c) else LastIndex(a, c)
  {
    if b != [] {
      assert (a + b)[..|a + b| - 1] == a + b[..|b| - 1];
      if b[|b| - 1] != c {
        LastIndexAppend(a, b[..|b| - 1], c);
        assert c in b <==> c in b[..|b| - 1] by {
          assert b == b[..|b| - 1] + [b[|b| - 1]];
        }
      }
    } else {
      assert a + b == a;
    }
  }

  /** Every character of `s` is a dot. */
  predicate AllDots(s: string) {
    forall i | 0 <= i < |s| :: s[i] == '.'
  }

  /** An extension as splitext returns it: empty, or one leading dot followed
      by characters that are neither dots nor separators. */
  predicate IsExtension(e: string) {
    e != [] ==> e[0] == '.' && forall j :: 0 <= j < |e| ==> (j > 0 ==> e[j] != '.') && e[j] != '/'
  }

  /** os.path.splitext with the POSIX separator: the extension runs from the
      last dot of the last path component, unless everything before that
      dot in the component is dots. */
  function SplitExt(p: string): (r: (string, string))
    ensures r.0 + r.1 == p
    ensures IsExtension(r.1)
  {
    var sep := LastIndex(p, '/');
    var dot := LastIndex(p, '.');
    if dot > sep && !AllDots(p[sep + 1..dot]) then
      LastDotStartsExtension(p, sep, dot);
      (p[..dot], p[dot..])
    else (p, "")
  }

  lemma LastDotStartsExtension(p: string, sep: int, dot: int)
    requires sep == LastIndex(p, '/') && dot == LastIndex(p, '.') && dot > sep
    ensures p[..dot] + p[dot..] == p
    ensures IsExtension(p[dot..])
  {
    var ext := p[dot..];
    assert forall j :: 0 <= j < |ext| ==> ext[j] == p[dot + j];
  }

  /** Appending a suffix without dots or separators to the base of a name
      keeps its extension: splitting the result gives back the longer base
      and the same extension. */
  lemma SplitExtAfterSuffix(p: string, x: string)
    requires '.' !in x && '/' !in x && x != []
    ensures SplitExt(SplitExt(p).0 + x + SplitExt(p).1) == (SplitExt(p).0 + x, SplitExt(p).1)
  {
    if SplitExt(p).1 != [] {
      SuffixBeforeExtension(p, x);
    } else {
      SuffixWithoutExtension(p, x);
    }
  }

  /** The case of SplitExtAfterSuffix where the name has an extension. */
  lemma SuffixBeforeExtension(p: string, x: string)
    requires '.' !in x && '/' !in x && x != []
    requires SplitExt(p).1 != []
    ensures SplitExt(SplitExt(p).0 + x + SplitExt(p).1) == (SplitExt(p).0 + x, SplitExt(p).1)
  {
    var (b, e) := SplitExt(p);
    var q := b + x + e;
    var sep := LastIndex(p, '/');
    assert '.' in e && '/' !in e;
    LastIndexAppend(b, x, '/');
    LastIndexAppend(b, x, '.');
    LastIndexAppend(b + x, e, '.');
    LastIndexAppend(b + x, e, '/');
    LastIndexAppend(b, e, '/');
    assert LastIndex(e, '.') == 0;
    var qdot := |b| + |x|;
    assert LastIndex(q, '.') == qdot;
    assert LastIndex(q, '/') == sep;
    assert q[sep + 1..qdot][|b| - sep - 1] == x[0];
    assert q[..qdot] == b + x && q[qdot..] == e;
  }

  /** The case of SplitExtAfterSuffix where the name has no extension. */
  lemma SuffixWithoutExtension(p: string, x: string)
    requires '.' !in x && '/' !in x && x != []
    requires SplitExt(p).1 == []
    ensures SplitExt(SplitExt(p).0 + x + SplitExt(p).1) == (SplitExt(p).0 + x, SplitExt(p).1)
  {
    var sep := LastIndex(p, '/');
    var dot := LastIndex(p, '.');
    assert SplitExt(p) == (p, "");
    assert dot > sep ==> AllDots(p[sep + 1..dot]);
    var q := p + x;
    assert SplitExt(p).0 + x + SplitExt(p).1 == q;
    LastIndexAppend(p, x, '/');
    LastIndexAppend(p, x, '.');
    if dot > sep {
      assert q[sep + 1..dot] == p[sep + 1..dot];
    }
  }

  /** `s` with every non-overlapping occurrence of `pat`, scanning from the
      left, replaced by `rep` (str.replace). */
  function ReplaceAll(s: string, pat: string, rep: string): string
    requires pat != []
    decreases |s|
  {
    if |s| < |pat| then s
    else if s[..|pat|] == pat then rep + ReplaceAll(s[|pat|..], pat, rep)
    else [s[0]] + ReplaceAll(s[1..], pat, rep)
  }

  /** Replacing a pattern by itself changes nothing. */
  lemma {:induction false} ReplaceWithItself(s: string, pat: string)
    requires pat != []
    ensures ReplaceAll(s, pat, pat) == s
    decreases |s|
  {
    if |s| >= |pat| {
      if s[..|pat|] == pat {
        ReplaceWithItself(s[|pat|..], pat);
        assert s == pat + s[|pat|..];
      } else {
        ReplaceWithItself(s[1..], pat);
        assert s == [s[0]] + s[1..];
      }
    }
  }

  /** A string made of decimal digits only. */
  predicate IsDigits(s: string) {
    forall i :: 0 <= i < |s| ==> '0' <= s[i] <= '9'
  }

  /** The decimal digits of a natural number, with no leading zero. */
  function Digits(n: nat): (s: string)
    ensures |s| > 0 && IsDigits(s)
    ensures s[0] == '0' <==> n == 0
  {
    if n < 10 then [('0' as int + n) as char] else Digits(n / 10) + [('0' as int + n % 10) as char]
  }

  /** The number a string of decimal digits denotes. */
  function DigitsValue(s: string): nat
    requires IsDigits(s)
  {
    if s == [] then 0 else DigitsValue(s[..|s| - 1]) * 10 + (s[|s| - 1] as int - '0' as int)
  }

  /** Reading the digits back gives the number. */
  lemma {:induction false} DigitsRoundTrip(n: nat)
    ensures DigitsValue(Digits(n)) == n
  {
    if n >= 10 {
      var s := Digits(n);
      assert s[..|s| - 1] == Digits(n / 10);
      DigitsRoundTrip(n / 10);
    }
  }

  /** Python's '%d' of an integer: the digits of its magnitude, after a
      minus sign when it is negative. */
  function DecimalString(n: int): (s: string)
    ensures |s| > 0 && forall i :: 0 <= i < |s| ==> s[i] == '-' || '0' <= s[i] <= '9'
  {
    if n < 0 then "-" + Digits(-n) else Digits(n)
  }

  /** '%d' denotes the integer: digits with its value when it is not
      negative, otherwise a minus sign and the digits of its magnitude. */
  lemma DecimalStringValue(n: int)
    ensures n >= 0 ==> IsDigits(DecimalString(n)) && DigitsValue(DecimalString(n)) == n
    ensures n < 0 ==> var s := DecimalString(n);
      |s| > 1 && s[0] == '-' && IsDigits(s[1..]) && DigitsValue(s[1..]) == -n
  {
    if n < 0 {
      DigitsRoundTrip(-n);
      assert DecimalString(n)[1..] == Digits(-n);
    } else {
      DigitsRoundTrip(n);
    }
  }

  /** The '-<index>' that get_file_name inserts. */
  function IndexSuffix(index: int): string {
    "-" + DecimalString(index)
  }

  /** The '-<index>' suffix has neither dots nor separators. */
  lemma IndexSuffixIsPlain(index: int)
    ensures IndexSuffix(index) != []
    ensures '.' !in IndexSuffix(index) && '/' !in IndexSuffix(index)
  {
    var s := IndexSuffix(index);
    assert forall i :: 0 <= i < |s| ==> s[i] == '-' || '0' <= s[i] <= '9';
  }

  const InputFileMacro: string := "__INPUT_FILE__"

  /** The file name with the input-file macro substituted by the source
      file, or by the macro itself when the source file is missing or empty. */
  function Substituted(filename: string, sourceFile: Option<string>): string {
    ReplaceAll(filename, InputFileMacro,
      if sourceFile.Some? && sourceFile.value != "" then sourceFile.value else InputFileMacro)
  }

  /** get_file_name: a missing or empty name comes back as it was; without
      a source file the macro stays in place; index 0 adds nothing, any
      other index is inserted as '-<index>' between the base and the
      extension, which stays the extension of the result. */
  function FileName(filename: Option<string>, sourceFile: Option<string>, index: int): (r: Option<string>)
    ensures filename.None? || filename.value == "" ==> r == filename
    ensures filename.Some? && filename.value != "" ==> r.Some?
    ensures filename.Some? && filename.value != "" && index == 0 ==>
      r == Some(Substituted(filename.value, sourceFile))
    ensures filename.Some? && (sourceFile.None? || sourceFile.value == "") && index == 0 ==> r == filename
    ensures filename.Some? && filename.value != "" && index != 0 ==>
      var (base, ext) := SplitExt(Substituted(filename.value, sourceFile));
      SplitExt(r.value) == (base + IndexSuffix(index), ext)
  {
    if filename.None? || filename.value == "" then filename
    else
      var named := Substituted(filename.value, sourceFile);
      if index == 0 then
        ReplaceWithItself(filename.value, InputFileMacro);
        Some(named)
      else Some(IndexedName(named, index))
  }

  /** The name with '-<index>' inserted between its base and extension. */
  function IndexedName(named: string, index: int): (r: string)
    ensures SplitExt(r) == (SplitExt(named).0 + IndexSuffix(index), SplitExt(named).1)
  {
    IndexSuffixIsPlain(index);
    SplitExtAfterSuffix(named, IndexSuffix(index));
    SplitExt(named).0 + IndexSuffix(index) + SplitExt(named).1
  }

  // ---------------------------------------------------------------------
  // The context: add_event and copy_context

  /** The `engine` namespace fields the helpers use; `engineHandle` and
      `service` are the live engine object and its service functions, which
      cannot be deep-copied. */
  datatype EngineState = EngineState(
    msec: Option<int>,
    sourceFile: Option<string>,
    engineHandle: Option<nat>,
    service: set<string>)

  /** The `game` namespace fields the helpers use. */
  datatype GameState<V> = GameState(
    startOffsetMsec: Option<int>,
    index: int,
    events: map<string, seq<Event<V>>>)

  /** The IkaLog context, mutated in place by add_event. */
  class Context<V> {
    var engine: EngineState
    var game: GameState<V>

    constructor (engine: EngineState, game: GameState<V>)
      ensures this.engine == engine && this.game == game
    {
      this.engine := engine;
      this.game := game;
    }

    /** add_event: record `value` under `key` at the current game offset. */
    method AddEvent(key: string, value: V)
      modifies this
      ensures engine == old(engine)
      ensures game == old(game).(events := WithEvent(old(game.events), key,
                                   GameOffsetMsec(engine.msec, game.startOffsetMsec), value))
    {
      var events := game.events;
      var list := if key in events then events[key] else [];
      var gameTime := GameOffsetMsec(engine.msec, game.startOffsetMsec);
      if list != [] && list[|list| - 1].time == gameTime {
        list := list[..|list| - 1] + [Event(gameTime, value)];
      } else {
        list := list + [Event(gameTime, value)];
      }
      game := game.(events := events[key := list]);
    }

    /** copy_context: a new, independent context equal to this one except
        that the engine handle is cleared and the services are emptied; this
        context is left as it was. */
    method CopyContext() returns (c: Context<V>)
      ensures fresh(c)
      ensures c.game == game
      ensures c.engine == engine.(engineHandle := None, service := {})
    {
      var engine2 := engine;
      engine2 := engine2.(engineHandle := None);
      engine2 := engine2.(service := {});
      c := new Context(engine2, game);
    }
  }
}

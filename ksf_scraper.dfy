/** `KsfScraperService`: reads a map's page on ksf.surf and the pages of its
    zones for each of the four surf styles, collects the top-10 tables, and
    caches the result per map (case-insensitively) and list length for two
    minutes. The HTML selection is not modelled: a fetched page is what the
    CSS selectors picked out of it (`Page`), and `fetch(url)` is what
    fetching and loading that URL would give. */
module KsfScraper {
  import opened Wrappers
  import opened Text

  // ------------------------------------------------------------ page model

  /** One `div.grid-cols-subgrid` row: whether it holds a link to a player
      profile, the text of its rank, time and date columns, and in its player
      column the anchors' text, the first anchor's `href` and the `alt` of
      the first image whose `alt` starts with "flag" (None when absent). */
  datatype RowElement = RowElement(
    hasPlayerLink: bool,
    rankText: string,
    linkText: string,
    linkHref: Option<string>,
    flagAlt: Option<string>,
    timeText: string,
    dateText: string)

  /** One `nav select option`: its `value` attribute and its text. */
  datatype OptionElement = OptionElement(value: Option<string>, caption: string)

  /** What the selectors pick out of a page: the table rows, the texts of the
      `div.flex.justify-end.gap-1 > div` info blocks, and the zone options. */
  datatype Page = Page(rows: seq<RowElement>, infoBlocks: seq<string>, options: seq<OptionElement>)

  /** One row of a top-10 table; `rank` is None when it is not a number. */
  datatype Record = Record(rank: Option<int>, name: string, steamId: string, country: string, time: string, date: string)

  datatype MapInfo = MapInfo(tier: Option<nat>, stages: nat, bonuses: nat)

  /** The records of one style: the map's own, and those of each stage and
      bonus by number. */
  datatype StyleRecords = StyleRecords(
    mapRecords: seq<Record>,
    stageRecords: map<nat, seq<Record>>,
    bonusesRecords: map<nat, seq<Record>>)

  /** The cached answer: the map, its info and the records of each style in
      the order the styles are scraped. */
  datatype MapData = MapData(mapName: string, info: MapInfo, styles: seq<(string, StyleRecords)>)

  datatype CacheEntry = CacheEntry(timestamp: int, data: MapData)

  /** An `HttpException`: its status and message. */
  datatype HttpError = HttpError(status: int, message: string)

  const BadGateway := 502

  /** How long a scraped map is reused, in milliseconds. */
  const CacheTtl := 120000

  const RowLimit := 10

  // ---------------------------------------------------------------- top-10

  /** The rows that hold a player link, in page order. */
  function LinkedRows(rows: seq<RowElement>): (r: seq<RowElement>)
    ensures |r| <= |rows|
    ensures forall k :: 0 <= k < |r| ==> r[k].hasPlayerLink && r[k] in rows
  {
    if rows == [] then []
    else (if rows[0].hasPlayerLink then [rows[0]] else []) + LinkedRows(rows[1..])
  }

  /** The filter keeps page order: the linked rows of two stretches of the
      page are those of the first followed by those of the second, and a
      single row is kept exactly when it links a player. */
  lemma {:induction false} LinkedRowsConcat(a: seq<RowElement>, b: seq<RowElement>)
    ensures LinkedRows(a + b) == LinkedRows(a) + LinkedRows(b)
    ensures |a| == 1 ==> LinkedRows(a) == if a[0].hasPlayerLink then a else []
  {
    if a == [] {
      assert a + b == b;
    } else {
      var tail := a[1..];
      assert a == [a[0]] + tail;
      assert a + b == [a[0]] + (tail + b);
      var head := if a[0].hasPlayerLink then [a[0]] else [];
      LinkedRowsCons(a[0], tail);
      LinkedRowsCons(a[0], tail + b);
      LinkedRowsConcat(tail, b);
      AppendAssoc(head, LinkedRows(tail), LinkedRows(b));
      if |a| == 1 {
        assert tail == [];
      }
    }
  }

  lemma AppendAssoc<T>(x: seq<T>, y: seq<T>, z: seq<T>)
    ensures x + (y + z) == (x + y) + z
  {
  }

  lemma LinkedRowsCons(el: RowElement, rest: seq<RowElement>)
    ensures LinkedRows([el] + rest) == (if el.hasPlayerLink then [el] else []) + LinkedRows(rest)
  {
    assert ([el] + rest)[1..] == rest;
  }

  /** Every row that links a player is kept. */
  lemma {:induction false} LinkedRowsKeepLinked(rows: seq<RowElement>)
    ensures forall k :: 0 <= k < |rows| && rows[k].hasPlayerLink ==> rows[k] in LinkedRows(rows)
  {
    if rows != [] {
      LinkedRowsKeepLinked(rows[1..]);
      assert forall k :: 1 <= k < |rows| ==> rows[k] == rows[1..][k - 1];
    }
  }

  /** The text after the last '/' of a string (the whole string when it
      holds none): `split('/').pop()`. */
  function LastSegment(s: string): string
  {
    LastPart(s, '/')
  }

  /** `(href || '').split('/').pop() || ''`. */
  function SteamIdOf(href: Option<string>): string
  {
    LastSegment(href.GetOr(""))
  }

  /** `alt?.replace(/^flag /, '') ?? 'Unknown'`. */
  function CountryOf(alt: Option<string>): string
  {
    match alt
    case None => "Unknown"
    case Some(a) => if StartsWith(a, "flag ") then a[5..] else a
  }

  function RowRecord(el: RowElement): Record
  {
    Record(
      JsParseInt(Trim(el.rankText)),
      Trim(el.linkText),
      SteamIdOf(el.linkHref),
      CountryOf(el.flagAlt),
      Trim(el.timeText),
      Trim(el.dateText))
  }

  /** `scrapeTop10`: the first ten rows that link a player, in page order. */
  function ScrapeTop10(rows: seq<RowElement>): (r: seq<Record>)
    ensures |r| <= RowLimit
    ensures |r| == if |LinkedRows(rows)| < RowLimit then |LinkedRows(rows)| else RowLimit
    ensures forall k :: 0 <= k < |r| ==> r[k] == RowRecord(LinkedRows(rows)[k])
  {
    var linked := LinkedRows(rows);
    var kept := if |linked| < RowLimit then linked else linked[..RowLimit];
    assert forall k :: 0 <= k < |kept| ==> kept[k] == linked[k];
    seq(|kept|, k requires 0 <= k < |kept| => RowRecord(kept[k]))
  }

  /** The steam id is the part of the profile link after its last '/': it
      holds no '/' and ends the link, right after a '/' when the link has one. */
  lemma SteamIdIsLastSegment(href: string)
    ensures var id := SteamIdOf(Some(href));
            && '/' !in id
            && |id| <= |href| && href[|href| - |id|..] == id
            && ('/' in href ==> |id| < |href| && href[|href| - |id| - 1] == '/')
  {
    LastSplitPart(href, '/');
  }

  /** The last part of `Split(s, c)`. */
  function LastPart(s: string, c: char): string
  {
    var parts := Split(s, c);
    parts[|parts| - 1]
  }

  lemma SuffixOfSuffix(s: string, i: nat, n: nat)
    requires i <= |s| && n <= |s| - i
    ensures s[i..][|s| - i - n..] == s[|s| - n..]
  {
  }

  lemma LastPartStep(s: string, c: char) returns (i: nat)
    requires c in s
    ensures i < |s| && s[i] == c && LastPart(s, c) == LastPart(s[i + 1..], c)
  {
    i := IndexOf(s, c);
    var tail := Split(s[i + 1..], c);
    var whole := Split(s, c);
    assert whole == [s[..i]] + tail;
    assert whole[|whole| - 1] == tail[|tail| - 1];
  }

  lemma LastPartWhole(s: string, c: char)
    requires c !in s
    ensures LastPart(s, c) == s
  {
    assert Split(s, c) == [s];
  }

  lemma {:induction false} LastSplitPart(s: string, c: char)
    ensures c !in LastPart(s, c)
    ensures |LastPart(s, c)| <= |s| && s[|s| - |LastPart(s, c)|..] == LastPart(s, c)
    ensures c in s ==> |LastPart(s, c)| < |s| && s[|s| - |LastPart(s, c)| - 1] == c
    decreases |s|
  {
    if c in s {
      var i := LastPartStep(s, c);
      var rest := s[i + 1..];
      LastSplitPart(rest, c);
      if c !in rest {
        LastPartWhole(rest, c);
      }
      SuffixAfterSeparator(s, i, rest, LastPart(rest, c), c);
    } else {
      LastPartWhole(s, c);
      assert s[|s| - |s|..] == s;
    }
  }

  /** A suffix p of the text `rest` after the separator at i, which is either
      all of `rest` or preceded by another separator, is a suffix of s
      preceded by a separator. */
  lemma SuffixAfterSeparator(s: string, i: nat, rest: string, p: string, c: char)
    requires i < |s| && s[i] == c && rest == s[i + 1..]
    requires |p| <= |rest| && rest[|rest| - |p|..] == p
    requires c in rest ==> |p| < |rest| && rest[|rest| - |p| - 1] == c
    requires c !in rest ==> p == rest
    ensures |p| < |s| && s[|s| - |p|..] == p && s[|s| - |p| - 1] == c
  {
    SuffixOfSuffix(s, i + 1, |p|);
    if c in rest {
      assert rest[|rest| - |p| - 1] == s[|s| - |p| - 1];
    } else {
      assert |s| - |p| - 1 == i;
    }
  }

  /** A flag image "flag xx" gives the country "xx"; a row without one is
      "Unknown". */
  lemma CountryOfFlag(code: string)
    ensures CountryOf(Some("flag " + code)) == code
    ensures CountryOf(None) == "Unknown"
  {
    assert ("flag " + code)[..5] == "flag ";
    assert ("flag " + code)[5..] == code;
  }

  // ------------------------------------------------------------------ info

  /** `parseInt(s.replace(/[^0-9]/g, ''), 10)`: None is NaN (no digit). */
  function DigitNumber(s: string): (r: Option<nat>)
    ensures r.None? <==> KeepDigits(s) == []
    ensures r.Some? ==> JsParseInt(KeepDigits(s)) == Some(r.value) && r.value == DigitsValue(KeepDigits(s))
  {
    var parsed := JsParseInt(KeepDigits(s));
    ParseIntOfDigits(KeepDigits(s));
    if parsed.None? then None else Some(parsed.value)
  }

  /** The text of the i-th info block; a block the page lacks reads "". */
  function InfoText(page: Page, i: nat): string
  {
    if i < |page.infoBlocks| then Trim(page.infoBlocks[i]) else ""
  }

  /** `scrapeInfo`: `tier` is `parseInt(…) || null`, stages and bonuses are
      `parseInt(…) || 0`. */
  function ScrapeInfo(page: Page): MapInfo
  {
    var tier := DigitNumber(InfoText(page, 0));
    var stages := DigitNumber(InfoText(page, 1));
    var bonuses := DigitNumber(InfoText(page, 2));
    MapInfo(
      if tier.None? || tier.value == 0 then None else tier,
      if stages.None? then 0 else stages.value,
      if bonuses.None? then 0 else bonuses.value)
  }

  /** Each count is the number its block's digits spell; a tier of 0 or
      without digits is null, and stages and bonuses without digits are 0. */
  lemma InfoIsDigitValue(page: Page)
    ensures var info := ScrapeInfo(page);
            && info.stages == DigitsValue(KeepDigits(InfoText(page, 1)))
            && info.bonuses == DigitsValue(KeepDigits(InfoText(page, 2)))
            && (info.tier.Some? <==> DigitsValue(KeepDigits(InfoText(page, 0))) > 0)
            && (info.tier.Some? ==> info.tier.value == DigitsValue(KeepDigits(InfoText(page, 0))))
  {
  }

  // ------------------------------------------------------------------ URLs

  function BaseUrl(mapName: string): string
  {
    "https://ksf.surf/maps/" + mapName
  }

  /** The four styles, in scraping order, with their `mode` parameter. */
  const Styles: seq<(string, string)> :=
    [("forward", ""), ("sideways", "sw"), ("halfsideways", "hsw"), ("backwards", "bw")]

  /** The page of one style: the base page, with `?mode=` only for a
      non-empty parameter. */
  function StyleUrl(baseUrl: string, styleParam: string): string
  {
    if styleParam != "" then baseUrl + "?mode=" + styleParam else baseUrl
  }

  /** Different style parameters give different pages, and the forward
      style's page is the base page. */
  lemma StyleUrlInjective(baseUrl: string, p: string, q: string)
    ensures StyleUrl(baseUrl, "") == baseUrl
    ensures StyleUrl(baseUrl, p) == StyleUrl(baseUrl, q) <==> p == q
  {
    if StyleUrl(baseUrl, p) == StyleUrl(baseUrl, q) && p != "" && q != "" {
      var n := |baseUrl| + |"?mode="|;
      assert StyleUrl(baseUrl, p)[n..] == p;
      assert StyleUrl(baseUrl, q)[n..] == q;
    }
  }

  /** The page of one zone of a style: zone "0" is the style's own page;
      any other zone has its own URL, with `&mode=` for a non-empty style. */
  function ZoneUrl(url: string, mapName: string, value: string, styleParam: string): string
  {
    if value == "0" then url
    else "https://ksf.surf/maps/" + mapName + "?zone=" + value + (if styleParam != "" then "&mode=" + styleParam else "")
  }

  /** Within one style of one map, different zones get different URLs. */
  lemma ZoneUrlInjective(url: string, mapName: string, v: string, w: string, styleParam: string)
    requires v != "0" && w != "0"
    ensures ZoneUrl(url, mapName, v, styleParam) == ZoneUrl(url, mapName, w, styleParam) <==> v == w
  {
    var head := "https://ksf.surf/maps/" + mapName + "?zone=";
    var tail := if styleParam != "" then "&mode=" + styleParam else "";
    var a, b := ZoneUrl(url, mapName, v, styleParam), ZoneUrl(url, mapName, w, styleParam);
    assert a == head + v + tail && b == head + w + tail;
    if a == b {
      assert a[|head|..|a| - |tail|] == v;
      assert b[|head|..|b| - |tail|] == w;
    }
  }

  // ------------------------------------------------------- routing options

  /** What one style's scrape works with: its page URL and parameter, the
      page itself, the list length, and the fetcher for zone pages. */
  datatype Scope = Scope(
    url: string,
    mapName: string,
    styleParam: string,
    fullList: bool,
    base: Page,
    fetch: string -> Result<Page, string>)

  /** The records one option contributes: None when it has no value, when
      its page cannot be fetched (the error is swallowed) or when its table
      is empty; otherwise the whole table or only its first row. */
  function OptionRecords(s: Scope, opt: OptionElement): (r: Option<seq<Record>>)
    ensures r.Some? ==> opt.value.Some? && opt.value.value != ""
    ensures r.Some? ==> 1 <= |r.value| <= RowLimit && (!s.fullList ==> |r.value| == 1)
    ensures opt.value.Some? && opt.value.value != "" ==>
              var page := ZonePage(s, opt.value.value);
              && (page.Failure? ==> r.None?)
              && (page.Success? ==>
                    var top10 := ScrapeTop10(page.value.rows);
                    && (r.None? <==> top10 == [])
                    && (r.Some? ==> r.value <= top10 && (s.fullList ==> r.value == top10)))
  {
    if opt.value.None? || opt.value.value == "" then None
    else
      var value := opt.value.value;
      var page := ZonePage(s, value);
      if page.Failure? then None
      else
        var top10 := ScrapeTop10(page.value.rows);
        if top10 == [] then None
        else Some(if s.fullList then top10 else [top10[0]])
  }

  /** The page an option's records are read from: the style's own page for
      zone "0", otherwise the zone's page as fetched. */
  function ZonePage(s: Scope, value: string): Result<Page, string>
  {
    if value == "0" then Success(s.base) else s.fetch(ZoneUrl(s.url, s.mapName, value, s.styleParam))
  }

  /** Whether an option names a stage rather than a bonus. */
  predicate IsStageLabel(opt: OptionElement)
  {
    Contains(Lower(Trim(opt.caption)), "stage")
  }

  /** The number in an option's label; None when the label has no digit. */
  function ZoneNumber(opt: OptionElement): Option<nat>
  {
    DigitNumber(Trim(opt.caption))
  }

  /** Where an option's records go: the map's own list (zone "0"), the
      stage or bonus table under the number in its label, or nowhere (no
      value, or a label without digits). */
  datatype Target = MapZone | Stage(n: nat) | Bonus(n: nat) | Nowhere

  function TargetOf(opt: OptionElement): Target
  {
    if opt.value.None? || opt.value.value == "" then Nowhere
    else if opt.value.value == "0" then MapZone
    else
      var n := ZoneNumber(opt);
      if n.None? then Nowhere
      else if IsStageLabel(opt) then Stage(n.value)
      else Bonus(n.value)
  }

  /** One turn of the `for (const opt of options)` loop of `scrapeMap`,
      once the option's records are known (None: skipped). */
  function Route(acc: StyleRecords, target: Target, records: Option<seq<Record>>): StyleRecords
  {
    if records.None? then acc
    else match target
      case MapZone => acc.(mapRecords := acc.mapRecords + records.value)
      case Stage(n) => acc.(stageRecords := acc.stageRecords[n := records.value])
      case Bonus(n) => acc.(bonusesRecords := acc.bonusesRecords[n := records.value])
      case Nowhere => acc
  }

  /** Each option's target beside the records it contributes. */
  function Tagged(s: Scope, opts: seq<OptionElement>): (r: seq<(Target, Option<seq<Record>>)>)
    ensures |r| == |opts|
    ensures forall k :: 0 <= k < |opts| ==> r[k] == (TargetOf(opts[k]), OptionRecords(s, opts[k]))
  {
    seq(|opts|, k requires 0 <= k < |opts| => (TargetOf(opts[k]), OptionRecords(s, opts[k])))
  }

  /** The loop run over a prefix of the tagged options. */
  function RouteAll(tagged: seq<(Target, Option<seq<Record>>)>): StyleRecords
    decreases |tagged|
  {
    if tagged == [] then StyleRecords([], map[], map[])
    else
      var last := tagged[|tagged| - 1];
      Route(RouteAll(tagged[..|tagged| - 1]), last.0, last.1)
  }

  /** The target of the stage table (`stage`) or the bonus table under k. */
  function TableTarget(stage: bool, k: nat): Target
  {
    if stage then Stage(k) else Bonus(k)
  }

  /** A tagged option whose records land in that table under number k. */
  predicate Lands(t: (Target, Option<seq<Record>>), stage: bool, k: nat)
  {
    t.1.Some? && t.0 == TableTarget(stage, k)
  }

  function Table(r: StyleRecords, stage: bool): map<nat, seq<Record>>
  {
    if stage then r.stageRecords else r.bonusesRecords
  }

  /** One option changes a table only by storing its records under its number. */
  lemma RouteTable(acc: StyleRecords, target: Target, records: Option<seq<Record>>, stage: bool)
    ensures Table(Route(acc, target, records), stage) ==
              if records.Some? && (target.Stage? || target.Bonus?) && target == TableTarget(stage, target.n)
              then Table(acc, stage)[target.n := records.value]
              else Table(acc, stage)
  {
  }

  /** Every number some option lands under is in the table. */
  lemma {:induction false} RoutedTableKeys(tagged: seq<(Target, Option<seq<Record>>)>, stage: bool)
    ensures forall i, k :: 0 <= i < |tagged| && Lands(tagged[i], stage, k) ==> k in Table(RouteAll(tagged), stage)
    decreases |tagged|
  {
    if tagged != [] {
      var n := |tagged| - 1;
      var prefix, last := tagged[..n], tagged[n];
      RoutedTableKeys(prefix, stage);
      RouteTable(RouteAll(prefix), last.0, last.1, stage);
      assert forall i :: 0 <= i < n ==> prefix[i] == tagged[i];
    }
  }

  /** A number in a table holds the records of the LAST option that lands
      under it: a later option with the same number overwrites an earlier one. */
  lemma {:induction false} RoutedTableLast(tagged: seq<(Target, Option<seq<Record>>)>, stage: bool)
    ensures forall k :: k in Table(RouteAll(tagged), stage) ==>
              exists i :: && 0 <= i < |tagged| && Lands(tagged[i], stage, k)
                          && tagged[i].1.value == Table(RouteAll(tagged), stage)[k]
                          && forall j :: i < j < |tagged| ==> !Lands(tagged[j], stage, k)
    decreases |tagged|
  {
    if tagged != [] {
      var n := |tagged| - 1;
      var prefix, last := tagged[..n], tagged[n];
      RoutedTableLast(prefix, stage);
      var before := Table(RouteAll(prefix), stage);
      var after := Table(RouteAll(tagged), stage);
      RouteTable(RouteAll(prefix), last.0, last.1, stage);
      forall k | k in after
        ensures exists i :: && 0 <= i < |tagged| && Lands(tagged[i], stage, k)
                            && tagged[i].1.value == after[k]
                            && forall j :: i < j < |tagged| ==> !Lands(tagged[j], stage, k)
      {
        if Lands(last, stage, k) {
          assert tagged[n] == last;
        } else {
          assert k in before && after[k] == before[k];
          var i :| && 0 <= i < |prefix| && Lands(prefix[i], stage, k)
                   && prefix[i].1.value == before[k]
                   && forall j :: i < j < |prefix| ==> !Lands(prefix[j], stage, k);
          assert tagged[i] == prefix[i];
          assert forall j :: i < j < n ==> tagged[j] == prefix[j];
        }
      }
    }
  }

  /** A list a table may hold: one to ten records, exactly one without
      `fullList`. */
  predicate ListOk(records: seq<Record>, fullList: bool)
  {
    1 <= |records| <= RowLimit && (!fullList ==> |records| == 1)
  }

  predicate TablesOk(r: StyleRecords, fullList: bool)
  {
    && (forall k :: k in r.stageRecords ==> ListOk(r.stageRecords[k], fullList))
    && (forall k :: k in r.bonusesRecords ==> ListOk(r.bonusesRecords[k], fullList))
  }

  lemma RouteKeepsTablesOk(acc: StyleRecords, target: Target, records: Option<seq<Record>>, fullList: bool)
    requires TablesOk(acc, fullList)
    requires records.Some? ==> ListOk(records.value, fullList)
    ensures TablesOk(Route(acc, target, records), fullList)
    ensures |Route(acc, target, records).mapRecords| <= |acc.mapRecords| + (if records.Some? then |records.value| else 0)
  {
  }

  /** Every stored list holds one to ten records, exactly one without
      `fullList`, and the map's own records grow by at most ten per option. */
  lemma {:induction false} RoutedListsBounded(tagged: seq<(Target, Option<seq<Record>>)>, fullList: bool)
    requires forall k :: 0 <= k < |tagged| && tagged[k].1.Some? ==> ListOk(tagged[k].1.value, fullList)
    ensures TablesOk(RouteAll(tagged), fullList)
    ensures |RouteAll(tagged).mapRecords| <= RowLimit * |tagged|
    decreases |tagged|
  {
    if tagged != [] {
      var prefix, last := tagged[..|tagged| - 1], tagged[|tagged| - 1];
      RoutedListsBounded(prefix, fullList);
      RouteKeepsTablesOk(RouteAll(prefix), last.0, last.1, fullList);
    }
  }

  /** The options of a page meet the bound: what one option contributes is a
      top-10 table or its first row. */
  lemma StyleListsBounded(s: Scope, opts: seq<OptionElement>)
    ensures TablesOk(RouteAll(Tagged(s, opts)), s.fullList)
    ensures |RouteAll(Tagged(s, opts)).mapRecords| <= RowLimit * |opts|
  {
    RoutedListsBounded(Tagged(s, opts), s.fullList);
  }

  /** The body of the option loop: push zone "0"'s records onto the map's
      list, or store them under the label's number in the stage or bonus
      table. */
  method RouteOption(acc: StyleRecords, opt: OptionElement, records: Option<seq<Record>>)
    returns (next: StyleRecords)
    ensures next == Route(acc, TargetOf(opt), records)
  {
    next := acc;
    if opt.value.None? || opt.value.value == "" {
      return;
    }
    if records.Some? {
      var value := opt.value.value;
      if value == "0" {
        next := acc.(mapRecords := acc.mapRecords + records.value);
        TargetOfValued(opt);
      } else {
        var n := ZoneNumber(opt);
        if n.Some? {
          var stage := IsStageLabel(opt);
          TargetOfValued(opt);
          if stage {
            next := acc.(stageRecords := acc.stageRecords[n.value := records.value]);
          } else {
            next := acc.(bonusesRecords := acc.bonusesRecords[n.value := records.value]);
          }
        }
      }
    }
  }

  /** Where an option with a value goes, case by case. */
  lemma TargetOfValued(opt: OptionElement)
    requires opt.value.Some? && opt.value.value != ""
    ensures opt.value.value == "0" ==> TargetOf(opt) == MapZone
    ensures opt.value.value != "0" && ZoneNumber(opt).Some? && IsStageLabel(opt) ==> TargetOf(opt) == Stage(ZoneNumber(opt).value)
    ensures opt.value.value != "0" && ZoneNumber(opt).Some? && !IsStageLabel(opt) ==> TargetOf(opt) == Bonus(ZoneNumber(opt).value)
  {
  }

  /** What `scrapeMap` gives for one style: the error of fetching the
      style's page, or its options routed in order. */
  function ScrapeStyle(url: string, mapName: string, styleParam: string, fullList: bool,
                       fetch: string -> Result<Page, string>): Result<StyleRecords, string>
  {
    match fetch(url)
    case Failure(e) => Failure(e)
    case Success(base) => Success(RouteAll(Tagged(Scope(url, mapName, styleParam, fullList, base, fetch), base.options)))
  }

  /** `scrapeMap`: fetch the style's page, then route its zone options in
      order. A failure to fetch the style's page is the method's failure. */
  method ScrapeMap(url: string, mapName: string, styleParam: string, fullList: bool,
                   fetch: string -> Result<Page, string>)
    returns (r: Result<StyleRecords, string>)
    ensures r == ScrapeStyle(url, mapName, styleParam, fullList, fetch)
  {
    var base := fetch(url);
    if base.Failure? {
      return Failure(base.error);
    }
    var s := Scope(url, mapName, styleParam, fullList, base.value, fetch);
    var options := base.value.options;
    ghost var tagged := Tagged(s, options);
    var acc := StyleRecords([], map[], map[]);
    var i := 0;
    while i < |options|
      invariant 0 <= i <= |options|
      invariant acc == RouteAll(tagged[..i])
    {
      var opt := options[i];
      var records := OptionRecords(s, opt);
      assert tagged[i] == (TargetOf(opt), records);
      acc := RouteOption(acc, opt, records);
      assert tagged[..i + 1][..i] == tagged[..i];
      i := i + 1;
    }
    assert tagged[..i] == tagged;
    r := Success(acc);
  }

  // ------------------------------------------------------------- the map

  /** The style loop of `getMap` over a prefix of the styles: the records of
      each style in order, or the error of the first style that failed. */
  function ScrapeStyles(mapName: string, fullList: bool, fetch: string -> Result<Page, string>,
                        styles: seq<(string, string)>): (r: Result<seq<(string, StyleRecords)>, string>)
    ensures r.Success? ==> |r.value| == |styles|
    decreases |styles|
  {
    if styles == [] then Success([])
    else
      var done := ScrapeStyles(mapName, fullList, fetch, styles[..|styles| - 1]);
      var style := styles[|styles| - 1];
      if done.Failure? then done
      else
        var next := ScrapeStyle(StyleUrl(BaseUrl(mapName), style.1), mapName, style.1, fullList, fetch);
        if next.Failure? then Failure(next.error)
        else Success(done.value + [(style.0, next.value)])
  }

  /** On success there is one entry per style, named as the style, in style
      order. */
  lemma {:induction false} ScrapeStylesNames(mapName: string, fullList: bool, fetch: string -> Result<Page, string>,
                                             styles: seq<(string, string)>)
    requires ScrapeStyles(mapName, fullList, fetch, styles).Success?
    ensures var r := ScrapeStyles(mapName, fullList, fetch, styles).value;
            |r| == |styles| && forall k :: 0 <= k < |styles| ==> r[k].0 == styles[k].0
    decreases |styles|
  {
    if styles != [] {
      var init := styles[..|styles| - 1];
      ScrapeStylesNames(mapName, fullList, fetch, init);
      var done := ScrapeStyles(mapName, fullList, fetch, init).value;
      var r := ScrapeStyles(mapName, fullList, fetch, styles).value;
      assert r == done + [(styles[|styles| - 1].0, r[|r| - 1].1)];
      forall k | 0 <= k < |styles| ensures r[k].0 == styles[k].0 {
        if k < |styles| - 1 {
          assert r[k] == done[k] && init[k] == styles[k];
        }
      }
    }
  }

  /** One more style: what the styles before it gave, extended by its own
      result, or the first failure. */
  lemma ScrapeStylesStep(mapName: string, fullList: bool, fetch: string -> Result<Page, string>,
                         styles: seq<(string, string)>, n: nat)
    requires n < |styles|
    ensures var done := ScrapeStyles(mapName, fullList, fetch, styles[..n]);
            var next := ScrapeStyle(StyleUrl(BaseUrl(mapName), styles[n].1), mapName, styles[n].1, fullList, fetch);
            ScrapeStyles(mapName, fullList, fetch, styles[..n + 1]) ==
              if done.Failure? then done
              else if next.Failure? then Failure(next.error)
              else Success(done.value + [(styles[n].0, next.value)])
  {
    assert styles[..n + 1][..n] == styles[..n] && styles[..n + 1][n] == styles[n];
  }

  /** The `for (const [style, styleParam] of Object.entries(styles))` loop
      of `getMap`: scrape the styles in order; the first failure ends it. */
  method ScrapeAllStyles(mapName: string, fullList: bool, fetch: string -> Result<Page, string>)
    returns (r: Result<seq<(string, StyleRecords)>, string>)
    ensures r == ScrapeStyles(mapName, fullList, fetch, Styles)
  {
    var baseUrl := BaseUrl(mapName);
    var styleData: seq<(string, StyleRecords)> := [];
    var i := 0;
    while i < |Styles|
      invariant 0 <= i <= |Styles|
      invariant ScrapeStyles(mapName, fullList, fetch, Styles[..i]) == Success(styleData)
    {
      var style := Styles[i];
      var records := ScrapeMap(StyleUrl(baseUrl, style.1), mapName, style.1, fullList, fetch);
      ScrapeStylesStep(mapName, fullList, fetch, Styles, i);
      if records.Failure? {
        ScrapeFailurePersists(mapName, fullList, fetch, i + 1);
        return Failure(records.error);
      }
      styleData := styleData + [(style.0, records.value)];
      i := i + 1;
    }
    assert Styles[..i] == Styles;
    r := Success(styleData);
  }

  /** What scraping a map gives when nothing comes from the cache. */
  function Scrape(mapName: string, fullList: bool, fetch: string -> Result<Page, string>): Result<MapData, string>
  {
    match fetch(BaseUrl(mapName))
    case Failure(e) => Failure(e)
    case Success(base) =>
      var styles := ScrapeStyles(mapName, fullList, fetch, Styles);
      if styles.Failure? then Failure(styles.error)
      else Success(MapData(mapName, ScrapeInfo(base), styles.value))
  }

  /** The HTTP error a failed fetch becomes: `fetchPage` wraps the cause,
      and `getMap` wraps that again, both as 502 Bad Gateway. */
  function ScrapeError(cause: string): HttpError
  {
    HttpError(BadGateway, "Scraping failed: " + "Failed to fetch page: " + cause)
  }

  /** `${mapName.toLowerCase()}_${fullList ? 'full' : 'top1'}`. */
  function CacheKey(mapName: string, fullList: bool): string
  {
    Lower(mapName) + "_" + (if fullList then "full" else "top1")
  }

  /** Two requests share a cache entry exactly when their map names agree up
      to case and they ask for the same list length. */
  lemma CacheKeyShared(a: string, b: string, fa: bool, fb: bool)
    ensures CacheKey(a, fa) == CacheKey(b, fb) <==> Lower(a) == Lower(b) && fa == fb
  {
    var ka, kb := CacheKey(a, fa), CacheKey(b, fb);
    var sa := "_" + (if fa then "full" else "top1");
    var sb := "_" + (if fb then "full" else "top1");
    assert ka == Lower(a) + sa && kb == Lower(b) + sb;
    if ka == kb {
      assert |sa| == |sb| == 5;
      assert ka[|ka| - 5..] == sa && kb[|kb| - 5..] == sb;
      assert ka[..|ka| - 5] == Lower(a) && kb[..|kb| - 5] == Lower(b);
      assert sa[1] == (if fa then 'f' else 't') && sb[1] == (if fb then 'f' else 't');
    }
  }

  /** The entry for `key` is served when it is younger than the lifetime. */
  function Cached(cache: map<string, CacheEntry>, key: string, now: int): (r: Option<MapData>)
    ensures r.Some? <==> key in cache && now - cache[key].timestamp < CacheTtl
    ensures r.Some? ==> r.value == cache[key].data
  {
    if key in cache && now - cache[key].timestamp < CacheTtl then Some(cache[key].data) else None
  }

  class KsfScraperService {
    var cache: map<string, CacheEntry>

    constructor()
      ensures cache == map[]
    {
      cache := map[];
    }

    /** `getMap` at time `now`. A fresh entry is served as is; otherwise the
        map is scraped, and a success is stored under the key with `now`
        while a failure stores nothing and is reported as 502. */
    method GetMap(mapName: string, fullList: bool, now: int, fetch: string -> Result<Page, string>)
      returns (r: Result<MapData, HttpError>)
      modifies this
      ensures Cached(old(cache), CacheKey(mapName, fullList), now).Some? ==>
                r == Success(old(cache)[CacheKey(mapName, fullList)].data) && cache == old(cache)
      ensures Cached(old(cache), CacheKey(mapName, fullList), now).None? ==>
                match Scrape(mapName, fullList, fetch)
                case Success(d) => r == Success(d) && cache == old(cache)[CacheKey(mapName, fullList) := CacheEntry(now, d)]
                case Failure(e) => r == Failure(ScrapeError(e)) && cache == old(cache)
    {
      var key := CacheKey(mapName, fullList);
      if key in cache && now - cache[key].timestamp < CacheTtl {
        return Success(cache[key].data);
      }
      ghost var expected := Scrape(mapName, fullList, fetch);
      var baseUrl := BaseUrl(mapName);
      var base := fetch(baseUrl);
      if base.Failure? {
        assert expected == Failure(base.error);
        return Failure(ScrapeError(base.error));
      }
      var info := ScrapeInfo(base.value);
      var styleData := ScrapeAllStyles(mapName, fullList, fetch);
      assert expected == if styleData.Failure? then Failure(styleData.error) else Success(MapData(mapName, info, styleData.value));
      if styleData.Failure? {
        return Failure(ScrapeError(styleData.error));
      }
      var result := MapData(mapName, info, styleData.value);
      cache := cache[key := CacheEntry(now, result)];
      r := Success(result);
    }
  }

  /** Once a style fails, the styles after it are not scraped and its error
      is the map's. */
  lemma {:induction false} ScrapeFailurePersists(mapName: string, fullList: bool,
                                                 fetch: string -> Result<Page, string>, n: nat)
    requires n <= |Styles|
    requires ScrapeStyles(mapName, fullList, fetch, Styles[..n]).Failure?
    ensures ScrapeStyles(mapName, fullList, fetch, Styles) == ScrapeStyles(mapName, fullList, fetch, Styles[..n])
    decreases |Styles| - n
  {
    if n < |Styles| {
      assert Styles[..n + 1][..n] == Styles[..n];
      ScrapeFailurePersists(mapName, fullList, fetch, n + 1);
    } else {
      assert Styles[..n] == Styles;
    }
  }

  /** A map stored at `t` is served for the next two minutes, under any
      spelling of its name that agrees up to case, and no longer. */
  lemma ServedWithinTtl(cache: map<string, CacheEntry>, mapName: string, other: string, fullList: bool,
                        d: MapData, t: int, later: int)
    requires Lower(other) == Lower(mapName)
    ensures var c := cache[CacheKey(mapName, fullList) := CacheEntry(t, d)];
            Cached(c, CacheKey(other, fullList), later) == if later - t < CacheTtl then Some(d) else None
  {
    CacheKeyShared(mapName, other, fullList, fullList);
  }
}

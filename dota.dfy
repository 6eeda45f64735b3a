/** dota.go: Dota 2 match records, the one-line match summary built in a
    buffer, and the multi-line match detail dump written to a writer. */
module Dota {
  import opened GoBase
  import opened Decimal
  import opened Strings
  import opened Seqs

  /** An output stream (`io.Writer`) seen as the lines written to it, each
      written with its terminating newline. The ghost fields split the lines
      into those written before the last `Mark` and those written since; they
      let a caller state what a run of writes added. */
  class Writer {
    var lines: seq<string>
    ghost var before: seq<string>
    ghost var since: seq<string>

    ghost predicate Valid()
      reads this
    {
      lines == before + since
    }

    constructor ()
      ensures Valid() && lines == []
    {
      lines, before, since := [], [], [];
    }

    /** Starts a new run of writes. */
    ghost method Mark()
      modifies this
      ensures Valid() && lines == old(lines) && before == lines && since == []
    {
      before, since := lines, [];
    }

    method WriteLine(line: string)
      requires Valid()
      modifies this
      ensures Valid() && lines == old(lines) + [line]
      ensures before == old(before) && since == old(since) + [line]
    {
      lines := lines + [line];
      since := since + [line];
    }
  }

  datatype DotaMatchPlayer = DotaMatchPlayer(accountId: uint64, playerSlot: int64, heroId: int64)

  /** A player's continuation columns: three placeholders, then the account
      id, the player slot and the hero id. */
  function PlayerFields(p: DotaMatchPlayer): seq<string> {
    ["-", "-", "-", FormatUint(p.accountId), FormatInt(p.playerSlot), FormatInt(p.heroId)]
  }

  /** A player's continuation line: its columns separated by tabs. It splits
      on tabs back into the three placeholders and the player's three decimal
      fields, in order. */
  function PlayerLine(p: DotaMatchPlayer): (r: string)
    ensures Split(r, '\t') == PlayerFields(p)
  {
    NumeralFree(p.accountId, '\t');
    NumeralFree(p.playerSlot, '\t');
    NumeralFree(p.heroId, '\t');
    assert FreeOf(PlayerFields(p), '\t');
    SplitJoin(PlayerFields(p), '\t');
    Join(PlayerFields(p), '\t')
  }

  datatype DotaMatch = DotaMatch(
    id: uint64,
    seqNum: uint64,
    startTime: uint64,
    lobbyType: int64,
    radiantTeamId: int64,
    direTeamId: int64,
    players: seq<DotaMatchPlayer>)
  {
    /** The six decimal columns of the header. */
    function HeaderFields(): seq<string> {
      [FormatUint(id), FormatUint(seqNum), FormatUint(startTime),
       FormatInt(lobbyType), FormatInt(radiantTeamId), FormatInt(direTeamId)]
    }

    /** The header line: its columns separated by tabs. It splits on tabs
        back into the six decimal fields, in order. */
    function HeaderLine(): (r: string)
      ensures Split(r, '\t') == HeaderFields()
    {
      NumeralFree(id, '\t');
      NumeralFree(seqNum, '\t');
      NumeralFree(startTime, '\t');
      NumeralFree(lobbyType, '\t');
      NumeralFree(radiantTeamId, '\t');
      NumeralFree(direTeamId, '\t');
      assert FreeOf(HeaderFields(), '\t');
      SplitJoin(HeaderFields(), '\t');
      Join(HeaderFields(), '\t')
    }

    /** The lines of the summary: the header, then one line per player. */
    function Lines(): (r: seq<string>)
      ensures |r| == 1 + |players| && r[0] == HeaderLine()
      ensures forall k :: 0 <= k < |players| ==> r[k + 1] == PlayerLine(players[k])
    {
      [HeaderLine()] + seq(|players|, k requires 0 <= k < |players| => PlayerLine(players[k]))
    }

    /** Writes each line with a newline into a buffer, then trims white space
        from both ends of the buffer. The result is the lines joined by
        newlines: only the buffer's final newline is removed. */
    method Oneline() returns (s: string)
      ensures s == Join(Lines(), '\n')
      ensures s + "\n" == Terminated(Lines())
    {
      ghost var lines := Lines();
      var buf := HeaderLine() + "\n";
      TerminatedSnoc(lines, 0);
      for i := 0 to |players|
        invariant buf == Terminated(lines[..i + 1])
      {
        TerminatedSnoc(lines, i + 1);
        buf := buf + PlayerLine(players[i]) + "\n";
      }
      assert lines[..|players| + 1] == lines;
      TrimmedBuffer(this, buf);
      s := TrimSpace(buf);
    }
  }

  /** Trimming the buffer of summary lines leaves the lines joined by
      newlines. */
  lemma TrimmedBuffer(d: DotaMatch, buf: string)
    requires buf == Terminated(d.Lines())
    ensures TrimSpace(buf) == Join(d.Lines(), '\n')
    ensures TrimSpace(buf) + "\n" == buf
  {
    var x := Join(d.Lines(), '\n');
    TerminatedJoin(d.Lines());
    OnelineEnds(d);
    DigitNotSpace(x[0]);
    DigitNotSpace(x[|x| - 1]);
    TrimSpaceNewline(x);
  }

  lemma DigitNotSpace(c: char)
    requires IsDigit(c)
    ensures !IsSpace(c)
  {
  }

  /** The joined summary starts with the first digit of the match id and ends
      with the last digit of a decimal field, so neither end is white space. */
  lemma OnelineEnds(d: DotaMatch)
    ensures var x := Join(d.Lines(), '\n');
      |x| >= 1 && IsDigit(x[0]) && IsDigit(x[|x| - 1])
  {
    var lines := d.Lines();
    var last := lines[|lines| - 1];
    var fields := if |d.players| == 0 then d.HeaderFields() else PlayerFields(d.players[|d.players| - 1]);
    assert last == Join(fields, '\t');
  }

  /** No summary line contains a newline. */
  lemma LinesFreeOfNewline(d: DotaMatch)
    ensures FreeOf(d.Lines(), '\n')
  {
    forall k | 0 <= k < |d.players|
      ensures '\n' !in PlayerLine(d.players[k])
    {
      var p := d.players[k];
      NumeralFree(p.accountId, '\n');
      NumeralFree(p.playerSlot, '\n');
      NumeralFree(p.heroId, '\n');
      JoinFree(PlayerFields(p), '\t', '\n');
    }
    NumeralFree(d.id, '\n');
    NumeralFree(d.seqNum, '\n');
    NumeralFree(d.startTime, '\n');
    NumeralFree(d.lobbyType, '\n');
    NumeralFree(d.radiantTeamId, '\n');
    NumeralFree(d.direTeamId, '\n');
    JoinFree(d.HeaderFields(), '\t', '\n');
  }

  /** The summary reads back line by line: the header first, then one line per
      player in list order, and exactly one newline between neighbours. */
  lemma OnelineLines(d: DotaMatch)
    ensures Split(Join(d.Lines(), '\n'), '\n') == d.Lines()
    ensures |Split(Join(d.Lines(), '\n'), '\n')| == 1 + |d.players|
    ensures Count(Join(d.Lines(), '\n'), '\n') == |d.players|
  {
    LinesFreeOfNewline(d);
    SplitJoin(d.Lines(), '\n');
    CountJoin(d.Lines(), '\n');
  }

  /** `Label: value`, one line of a detail dump. When the label holds no
      colon, the line splits at its one colon into the label and the value
      in decimal after a space. */
  function LabelLine(name: string, value: int): (r: string)
    ensures ':' !in name ==> Split(r, ':') == [name, " " + FormatInt(value)]
  {
    var r := name + ": " + FormatInt(value);
    assert r == name + [':'] + (" " + FormatInt(value));
    if ':' in name then r
    else
      NumeralFree(value, ':');
      SplitPair(name, " " + FormatInt(value), ':');
      r
  }

  datatype DotaAbilityUpgrades = DotaAbilityUpgrades(ability: int64, time: int64, level: int64)

  const PlayerLabels: seq<string> := [
    "AccountId", "PlayerSlot", "HeroId", "Item0", "Item1", "Item2", "Item3", "Item4", "Item5",
    "Kills", "Deaths", "Assists", "LeaverStatus", "Gold", "LastHits", "Denies",
    "GoldPerMinute", "XPPerMinute", "GoldSpent", "HeroDamage", "TowerDamage", "HeroHealing", "Level"]

  datatype DotaMatchPlayerDetails = DotaMatchPlayerDetails(
    accountId: uint64,
    playerSlot: int64,
    heroId: int64,
    item0: int64,
    item1: int64,
    item2: int64,
    item3: int64,
    item4: int64,
    item5: int64,
    kills: int64,
    deaths: int64,
    assists: int64,
    leaverStatus: int64,
    gold: int64,
    lastHits: int64,
    denies: int64,
    goldPerMinute: int64,
    xpPerMinute: int64,
    goldSpent: int64,
    heroDamage: int64,
    towerDamage: int64,
    heroHealing: int64,
    level: int64,
    abilityUpgrades: seq<DotaAbilityUpgrades>)
  {
    /** The printed fields, in the order of `PlayerLabels`. */
    function Values(): (v: seq<int>)
      ensures |v| == 23
    {
      [accountId, playerSlot, heroId, item0, item1, item2, item3, item4, item5,
       kills, deaths, assists, leaverStatus, gold, lastHits, denies,
       goldPerMinute, xpPerMinute, goldSpent, heroDamage, towerDamage, heroHealing, level]
    }

    /** The lines `Display` writes for one player: line `i` shows label `i`
        and field `i`. */
    function DetailLines(): (r: seq<string>)
      ensures |r| == 23
    {
      seq(23, i requires 0 <= i < 23 => LabelLine(PlayerLabels[i], Values()[i]))
    }

    method Display(w: Writer)
      modifies w
      ensures w.Valid() && w.lines == old(w.lines) + DetailLines()
    {
      w.Mark();
      w.WriteLine(LabelLine("AccountId", accountId));
      w.WriteLine(LabelLine("PlayerSlot", playerSlot));
      w.WriteLine(LabelLine("HeroId", heroId));
      w.WriteLine(LabelLine("Item0", item0));
      w.WriteLine(LabelLine("Item1", item1));
      w.WriteLine(LabelLine("Item2", item2));
      w.WriteLine(LabelLine("Item3", item3));
      w.WriteLine(LabelLine("Item4", item4));
      w.WriteLine(LabelLine("Item5", item5));
      w.WriteLine(LabelLine("Kills", kills));
      w.WriteLine(LabelLine("Deaths", deaths));
      w.WriteLine(LabelLine("Assists", assists));
      w.WriteLine(LabelLine("LeaverStatus", leaverStatus));
      w.WriteLine(LabelLine("Gold", gold));
      w.WriteLine(LabelLine("LastHits", lastHits));
      w.WriteLine(LabelLine("Denies", denies));
      w.WriteLine(LabelLine("GoldPerMinute", goldPerMinute));
      w.WriteLine(LabelLine("XPPerMinute", xpPerMinute));
      w.WriteLine(LabelLine("GoldSpent", goldSpent));
      w.WriteLine(LabelLine("HeroDamage", heroDamage));
      w.WriteLine(LabelLine("TowerDamage", towerDamage));
      w.WriteLine(LabelLine("HeroHealing", heroHealing));
      w.WriteLine(LabelLine("Level", level));
      LinesInWriteOrder(this);
    }
  }

  /** The player's lines, spelled out in the order `Display` writes them. */
  lemma LinesInWriteOrder(p: DotaMatchPlayerDetails)
    ensures p.DetailLines() == 
      [] + [LabelLine("AccountId", p.accountId)]
      + [LabelLine("PlayerSlot", p.playerSlot)]
      + [LabelLine("HeroId", p.heroId)]
      + [LabelLine("Item0", p.item0)]
      + [LabelLine("Item1", p.item1)]
      + [LabelLine("Item2", p.item2)]
      + [LabelLine("Item3", p.item3)]
      + [LabelLine("Item4", p.item4)]
      + [LabelLine("Item5", p.item5)]
      + [LabelLine("Kills", p.kills)]
      + [LabelLine("Deaths", p.deaths)]
      + [LabelLine("Assists", p.assists)]
      + [LabelLine("LeaverStatus", p.leaverStatus)]
      + [LabelLine("Gold", p.gold)]
      + [LabelLine("LastHits", p.lastHits)]
      + [LabelLine("Denies", p.denies)]
      + [LabelLine("GoldPerMinute", p.goldPerMinute)]
      + [LabelLine("XPPerMinute", p.xpPerMinute)]
      + [LabelLine("GoldSpent", p.goldSpent)]
      + [LabelLine("HeroDamage", p.heroDamage)]
      + [LabelLine("TowerDamage", p.towerDamage)]
      + [LabelLine("HeroHealing", p.heroHealing)]
      + [LabelLine("Level", p.level)]
  {
    Zip23(LabelLine, PlayerLabels, p.Values(),
      "AccountId", "PlayerSlot", "HeroId", "Item0", "Item1", "Item2", "Item3", "Item4", "Item5", "Kills", "Deaths", "Assists", "LeaverStatus", "Gold", "LastHits", "Denies", "GoldPerMinute", "XPPerMinute", "GoldSpent", "HeroDamage", "TowerDamage", "HeroHealing", "Level",
      p.accountId, p.playerSlot, p.heroId, p.item0, p.item1, p.item2, p.item3, p.item4, p.item5, p.kills, p.deaths, p.assists, p.leaverStatus, p.gold, p.lastHits, p.denies, p.goldPerMinute, p.xpPerMinute, p.goldSpent, p.heroDamage, p.towerDamage, p.heroHealing, p.level);
    Nest23(LabelLine("AccountId", p.accountId), LabelLine("PlayerSlot", p.playerSlot), LabelLine("HeroId", p.heroId), LabelLine("Item0", p.item0), LabelLine("Item1", p.item1), LabelLine("Item2", p.item2), LabelLine("Item3", p.item3), LabelLine("Item4", p.item4), LabelLine("Item5", p.item5), LabelLine("Kills", p.kills), LabelLine("Deaths", p.deaths), LabelLine("Assists", p.assists), LabelLine("LeaverStatus", p.leaverStatus), LabelLine("Gold", p.gold), LabelLine("LastHits", p.lastHits), LabelLine("Denies", p.denies), LabelLine("GoldPerMinute", p.goldPerMinute), LabelLine("XPPerMinute", p.xpPerMinute), LabelLine("GoldSpent", p.goldSpent), LabelLine("HeroDamage", p.heroDamage), LabelLine("TowerDamage", p.towerDamage), LabelLine("HeroHealing", p.heroHealing), LabelLine("Level", p.level));
  }

  /** What a player's block shows does not depend on the ability-upgrade
      timeline: that field is never printed. */
  lemma AbilityUpgradesNotShown(p: DotaMatchPlayerDetails, upgrades: seq<DotaAbilityUpgrades>)
    ensures p.(abilityUpgrades := upgrades).DetailLines() == p.DetailLines()
  {
  }

  /** Each player's block of lines, in list order. */
  function Blocks(ps: seq<DotaMatchPlayerDetails>): (bs: seq<seq<string>>)
    ensures |bs| == |ps| && Uniform(bs, 23)
  {
    seq(|ps|, i requires 0 <= i < |ps| => ps[i].DetailLines())
  }

  const MatchLabels: seq<string> := [
    "Duration", "StartTime", "Id", "SeqNum", "TowerStatusRadiant", "TowerStatusDire",
    "Cluster", "FirstBloodTime", "LobbyTime", "HumanPlayers", "LeagueId",
    "PositiveVotes", "NegativeVotes", "GameMode", "Engine"]

  /** The first line of a match dump names the winning side. */
  function OutcomeLine(radiantWin: bool): (r: string)
    ensures r == "Radiant Victory" <==> radiantWin
    ensures r == "Dire Victory" <==> !radiantWin
  {
    if radiantWin then "Radiant Victory" else "Dire Victory"
  }

  datatype DotaMatchDetails = DotaMatchDetails(
    radiantWin: bool,
    duration: int64,
    startTime: int64,
    id: uint64,
    seqNum: uint64,
    towerStatusRadiant: int64,
    towerStatusDire: int64,
    cluster: int64,
    firstBloodTime: int64,
    lobbyTime: int64,
    humanPlayers: int64,
    leagueId: int64,
    positiveVotes: int64,
    negativeVotes: int64,
    gameMode: int64,
    engine: int64,
    players: seq<DotaMatchPlayerDetails>)
  {
    /** The printed fields, in the order of `MatchLabels`. */
    function Values(): (v: seq<int>)
      ensures |v| == 15
    {
      [duration,
       startTime,
       id,
       seqNum,
       towerStatusRadiant,
       towerStatusDire,
       cluster,
       firstBloodTime,
       lobbyTime,
       humanPlayers,
       leagueId,
       positiveVotes,
       negativeVotes,
       gameMode,
       engine]
    }

    /** The fifteen match fields: line `i` shows label `i` and field `i`. */
    function FieldLines(): (r: seq<string>)
      ensures |r| == 15
    {
      seq(15, i requires 0 <= i < 15 => LabelLine(MatchLabels[i], Values()[i]))
    }

    /** The outcome line, then the match fields. */
    function SummaryLines(): (r: seq<string>)
      ensures |r| == 16
    {
      [OutcomeLine(radiantWin)] + FieldLines()
    }

    /** Everything `Display` writes. */
    function DetailLines(): (r: seq<string>)
      ensures |r| == 16 + 23 * |players|
    {
      FlattenLength(Blocks(players), 23);
      SummaryLines() + Flatten(Blocks(players))
    }

    method Display(w: Writer)
      modifies w
      ensures w.Valid() && w.lines == old(w.lines) + DetailLines()
    {
      w.Mark();
      if radiantWin {
        w.WriteLine("Radiant Victory");
      } else {
        w.WriteLine("Dire Victory");
      }
      w.Mark();
      w.WriteLine(LabelLine("Duration", duration));
      w.WriteLine(LabelLine("StartTime", startTime));
      w.WriteLine(LabelLine("Id", id));
      w.WriteLine(LabelLine("SeqNum", seqNum));
      w.WriteLine(LabelLine("TowerStatusRadiant", towerStatusRadiant));
      w.WriteLine(LabelLine("TowerStatusDire", towerStatusDire));
      w.WriteLine(LabelLine("Cluster", cluster));
      w.WriteLine(LabelLine("FirstBloodTime", firstBloodTime));
      w.WriteLine(LabelLine("LobbyTime", lobbyTime));
      w.WriteLine(LabelLine("HumanPlayers", humanPlayers));
      w.WriteLine(LabelLine("LeagueId", leagueId));
      w.WriteLine(LabelLine("PositiveVotes", positiveVotes));
      w.WriteLine(LabelLine("NegativeVotes", negativeVotes));
      w.WriteLine(LabelLine("GameMode", gameMode));
      w.WriteLine(LabelLine("Engine", engine));
      SummaryInWriteOrder(this);
      AppendAssoc(old(w.lines), [OutcomeLine(radiantWin)], w.since);
      DisplayPlayers(players, w);
      AppendAssoc(old(w.lines), SummaryLines(), Flatten(Blocks(players)));
    }
  }

  /** The match fields, spelled out in the order `Display` writes them. */
  lemma SummaryInWriteOrder(d: DotaMatchDetails)
    ensures d.FieldLines() ==
      [] + [LabelLine("Duration", d.duration)]
      + [LabelLine("StartTime", d.startTime)]
      + [LabelLine("Id", d.id)]
      + [LabelLine("SeqNum", d.seqNum)]
      + [LabelLine("TowerStatusRadiant", d.towerStatusRadiant)]
      + [LabelLine("TowerStatusDire", d.towerStatusDire)]
      + [LabelLine("Cluster", d.cluster)]
      + [LabelLine("FirstBloodTime", d.firstBloodTime)]
      + [LabelLine("LobbyTime", d.lobbyTime)]
      + [LabelLine("HumanPlayers", d.humanPlayers)]
      + [LabelLine("LeagueId", d.leagueId)]
      + [LabelLine("PositiveVotes", d.positiveVotes)]
      + [LabelLine("NegativeVotes", d.negativeVotes)]
      + [LabelLine("GameMode", d.gameMode)]
      + [LabelLine("Engine", d.engine)]
  {
    Zip15(LabelLine, MatchLabels, d.Values(),
      "Duration", "StartTime", "Id", "SeqNum", "TowerStatusRadiant", "TowerStatusDire", "Cluster", "FirstBloodTime", "LobbyTime", "HumanPlayers", "LeagueId", "PositiveVotes", "NegativeVotes", "GameMode", "Engine",
      d.duration, d.startTime, d.id, d.seqNum, d.towerStatusRadiant, d.towerStatusDire, d.cluster, d.firstBloodTime, d.lobbyTime, d.humanPlayers, d.leagueId, d.positiveVotes, d.negativeVotes, d.gameMode, d.engine);
    Nest15(LabelLine("Duration", d.duration), LabelLine("StartTime", d.startTime), LabelLine("Id", d.id), LabelLine("SeqNum", d.seqNum), LabelLine("TowerStatusRadiant", d.towerStatusRadiant), LabelLine("TowerStatusDire", d.towerStatusDire), LabelLine("Cluster", d.cluster), LabelLine("FirstBloodTime", d.firstBloodTime), LabelLine("LobbyTime", d.lobbyTime), LabelLine("HumanPlayers", d.humanPlayers), LabelLine("LeagueId", d.leagueId), LabelLine("PositiveVotes", d.positiveVotes), LabelLine("NegativeVotes", d.negativeVotes), LabelLine("GameMode", d.gameMode), LabelLine("Engine", d.engine));
  }

  /** The loop of `Display` over the players: each player's block, in list
      order. */
  method DisplayPlayers(players: seq<DotaMatchPlayerDetails>, w: Writer)
    modifies w
    ensures w.Valid() && w.lines == old(w.lines) + Flatten(Blocks(players))
  {
    w.Mark();
    ghost var head := w.lines;
    assert Blocks(players[..0]) == [];
    for i := 0 to |players|
      invariant w.Valid()
      invariant w.lines == head + Flatten(Blocks(players[..i]))
    {
      players[i].Display(w);
      BlocksSnoc(head, players, i);
    }
    assert players[..|players|] == players;
  }

  /** Displaying one more player appends that player's block. */
  lemma BlocksSnoc(head: seq<string>, ps: seq<DotaMatchPlayerDetails>, i: nat)
    requires i < |ps|
    ensures head + Flatten(Blocks(ps[..i + 1])) == head + Flatten(Blocks(ps[..i])) + ps[i].DetailLines()
  {
    var b := ps[i].DetailLines();
    assert Blocks(ps[..i + 1]) == Blocks(ps[..i]) + [b];
    FlattenSnoc(Blocks(ps[..i]), b);
    AppendAssoc(head, Flatten(Blocks(ps[..i])), b);
  }

  /** The layout of a match dump: the outcome line, the fifteen match fields,
      then each player's block in list order. */
  lemma DetailsLayout(d: DotaMatchDetails)
    ensures var r := d.DetailLines();
      && |r| == 16 + 23 * |d.players|
      && (r[0] == "Radiant Victory" <==> d.radiantWin)
      && (r[0] == "Dire Victory" <==> !d.radiantWin)
      && r[..16] == d.SummaryLines()
      && (forall k :: 0 <= k < |d.players| ==>
            r[16 + 23 * k .. 16 + 23 * k + 23] == d.players[k].DetailLines())
  {
    var head, blocks := d.SummaryLines(), Blocks(d.players);
    var tail := Flatten(blocks);
    FlattenLength(blocks, 23);
    SliceLeft(head, tail, 0, 16);
    assert head[0..16] == head;
    forall k | 0 <= k < |d.players|
      ensures (head + tail)[16 + 23 * k .. 16 + 23 * k + 23] == d.players[k].DetailLines()
    {
      FlattenBlock(blocks, 23, k);
      SliceRight(head, tail, 23 * k, 23 * k + 23);
    }
  }
}

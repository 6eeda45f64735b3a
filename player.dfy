/** player.go: the player records the API returns and their one-line renderings. */
module Player {
  import opened GoBase
  import opened Decimal
  import opened Strings

  /** One account's public profile, as decoded from `GetPlayerSummaries`. */
  datatype PlayerSummary = PlayerSummary(
    steamId: uint64,
    visibility: int64,
    profileState: int64,
    personaName: string,
    lastLogOff: int64,
    profileUrl: string,
    avatar: string,
    avatarMedium: string,
    avatarFull: string,
    personaState: int64,
    locCountryCode: string,
    locStateCode: string,
    locCityId: int64)
  {
    /** The decimal id, the persona name and the profile URL, separated by tabs. */
    function Oneline(): (s: string)
      ensures Split(s, '\t')[0] == FormatUint(steamId)
    {
      SplitHead(FormatUint(steamId), personaName + "\t" + profileUrl, '\t');
      assert FormatUint(steamId) + "\t" + personaName + "\t" + profileUrl
          == FormatUint(steamId) + ['\t'] + (personaName + "\t" + profileUrl);
      FormatUint(steamId) + "\t" + personaName + "\t" + profileUrl
    }
  }

  /** One entry of an account's friend list, as decoded from `GetFriendList`. */
  datatype PlayerFriend = PlayerFriend(steamId: uint64, relationship: string, friendSince: int64)
  {
    /** The decimal id, the relationship and the decimal friendship start,
        separated by tabs. */
    function Oneline(): (s: string)
      ensures Split(s, '\t')[0] == FormatUint(steamId)
    {
      SplitHead(FormatUint(steamId), relationship + "\t" + FormatInt(friendSince), '\t');
      assert FormatUint(steamId) + "\t" + relationship + "\t" + FormatInt(friendSince)
          == FormatUint(steamId) + ['\t'] + (relationship + "\t" + FormatInt(friendSince));
      FormatUint(steamId) + "\t" + relationship + "\t" + FormatInt(friendSince)
    }
  }

  /** The three fields of a summary line read back by splitting on tabs, when
      neither text field contains a tab. */
  lemma SummaryOnelineFields(p: PlayerSummary)
    requires '\t' !in p.personaName && '\t' !in p.profileUrl
    ensures Split(p.Oneline(), '\t') == [FormatUint(p.steamId), p.personaName, p.profileUrl]
  {
    var id := FormatUint(p.steamId);
    NumeralFree(p.steamId, '\t');
    assert FreeOf([id, p.personaName, p.profileUrl], '\t');
    SplitJoin([id, p.personaName, p.profileUrl], '\t');
    assert [id, p.personaName, p.profileUrl][..2] == [id, p.personaName];
    assert [id, p.personaName][..1] == [id];
    assert Join([id, p.personaName], '\t') == id + "\t" + p.personaName;
    assert Join([id, p.personaName, p.profileUrl], '\t') == p.Oneline();
  }

  /** The three fields of a friend line read back by splitting on tabs, when the
      relationship contains no tab. */
  lemma FriendOnelineFields(f: PlayerFriend)
    requires '\t' !in f.relationship
    ensures Split(f.Oneline(), '\t') == [FormatUint(f.steamId), f.relationship, FormatInt(f.friendSince)]
  {
    var id := FormatUint(f.steamId);
    var since := FormatInt(f.friendSince);
    NumeralFree(f.steamId, '\t');
    NumeralFree(f.friendSince, '\t');
    assert FreeOf([id, f.relationship, since], '\t');
    SplitJoin([id, f.relationship, since], '\t');
    assert [id, f.relationship, since][..2] == [id, f.relationship];
    assert [id, f.relationship][..1] == [id];
    assert Join([id, f.relationship], '\t') == id + "\t" + f.relationship;
    assert Join([id, f.relationship, since], '\t') == f.Oneline();
  }

  /** Whatever the other fields hold, the text before the first tab of either
      one-line rendering parses back to exactly the account id. */
  lemma OnelineIdParsesBack(p: PlayerSummary, f: PlayerFriend)
    ensures ParseUint(Split(p.Oneline(), '\t')[0]) == Some(p.steamId)
    ensures ParseUint(Split(f.Oneline(), '\t')[0]) == Some(f.steamId)
  {
    ParseFormatUint(p.steamId);
    ParseFormatUint(f.steamId);
  }

  /** How a `steamid` carried as a JSON string (the `,string` field option) is
      turned into a `uint64`: the text `null` leaves the field at its zero
      value; any other text is handed to `strconv.ParseUint(s, 10, 64)`, so it
      must be a non-empty run of digits whose value fits in 64 bits. Leading
      zeros are accepted, as `ParseUint` accepts them. */
  function DecodeSteamId(s: string): (r: Option<uint64>)
    ensures s == "null" ==> r == Some(0)
    ensures s != "null" ==> (r.Some? <==> |s| >= 1 && AllDigits(s) && ValueOf(s) <= MaxUint64)
    ensures r.Some? && s != "null" ==> r.value == ValueOf(s)
  {
    if s == "null" then Some(0) else ParseUint(s)
  }

  /** The string encoding of an id is lossless for every 64-bit value, and an
      accepted canonical numeral is exactly the rendering of the id it
      decodes to. */
  lemma SteamIdRoundTrip(id: uint64, s: string)
    ensures DecodeSteamId(FormatUint(id)) == Some(id)
    ensures Canonical(s) && DecodeSteamId(s).Some? ==> FormatUint(DecodeSteamId(s).value) == s
  {
    ParseFormatUint(id);
    assert FormatUint(id) != "null" by {
      assert IsDigit(FormatUint(id)[0]);
    }
    if Canonical(s) && DecodeSteamId(s).Some? {
      assert s != "null" by {
        assert IsDigit(s[0]);
      }
      FormatParseUint(s);
    }
  }

  /** A numeral with leading zeros decodes to the value of its digits: the
      text `0123` yields the id 123. */
  lemma LeadingZerosAccepted()
    ensures DecodeSteamId("0123") == Some(123)
  {
    assert AllDigits("0123");
    assert ValueOf("") == 0;
    assert "0"[..0] == "" && ValueOf("0") == 0;
    assert "01"[..1] == "0" && ValueOf("01") == 1;
    assert "012"[..2] == "01" && ValueOf("012") == 12;
    assert "0123"[..3] == "012" && ValueOf("0123") == 123;
  }

  /** The anonymous-account sentinel survives the string encoding. */
  lemma SentinelRoundTrip()
    ensures DecodeSteamId(FormatUint(4294967295)) == Some(4294967295)
  {
    SteamIdRoundTrip(4294967295, "");
  }
}

# Steam Web API client: a Dafny model

This project models the string-handling core of a small Go client for the
Steam Web API (package `steam`). Four parts are covered:

- **Request building** (`client.go`). Every request URL follows `Client.Get`'s
  template: host, `/{interface}/{method}/{version}/`, then `?key=<key>`.
  Endpoint parameters are appended after that. `GetPlayerSummaries` renders
  its ids in base 10 in a loop, joins them with commas, and refuses more than
  100 ids before making any request. `ResolveVanityUrl` returns the decoded id
  only when the reply says `success == 1`.
- **One-line renderings** (`player.go`, `dota.go`). A player summary and a
  friend entry each render as three tab-separated fields. A Dota match
  summary is written line by line into a buffer, then trimmed.
- **Multi-line match dumps** (`dota.go`). A match writes its outcome and 15
  labelled fields to a writer, then each player writes 23 labelled fields.
- **Errors** (`error.go`). `ClientError.Error` prints a fixed prefix, the
  message, and the parent error's text when there is one. `errorf` formats
  the message.

The modules follow the source files:

- `client.dfy`: module `SteamClient`.
- `player.dfy`: module `Player`.
- `dota.dfy`: module `Dota`.
- `error.dfy`: module `Errors`.

The pieces of Go's standard library they rely on are modelled in their own
modules. `decimal.dfy` covers `strconv.FormatUint` and `ParseUint`, and `%d`.
`strings.dfy` covers `strings.Join` and `TrimSpace`, which the client calls, and
`Split` and `Count` as the reference readings that take a joined string apart. `format.dfy`
covers the `%d` and `%%` subset of `fmt.Sprintf`. `seqs.dfy` holds sequence
lemmas and `gobase.dfy` the integer types.

The code's form is kept:

- Functions that only compute a value are Dafny functions.
- `GetPlayerSummaries` is a method. It fills a fresh array index by index, as
  the Go loop fills `ids_s`.
- `DotaMatch.Oneline` is a method. It appends to a string buffer in a loop,
  then trims it.
- Both `Display` methods append lines to a `Writer` object, which stands for
  the `io.Writer`.
- `NewClient` is the datatype constructor `Client(key)`, since the key is set
  once and never changed.

The network and the JSON decoder are parameters. Each client call takes a
`Reply`: the transport failed, the body did not decode, or the decoded
payload. Each call returns a `Call` that records the URL handed to `http.Get`
(`None` when the call stops before any request), the returned value and the
returned error.

Query values are inserted into the URL verbatim. Neither the vanity text of
`ResolveVanityUrl` nor the id list of `GetPlayerSummaries` is escaped, and the
model does the same. `SteamClient.VanityUrl` ends with the vanity text exactly
as given. `SteamClient.VanityNotEscaped` shows that a `&` in it starts a new
query parameter, and `SteamClient.VanityFragment` that a `#` in it starts the
fragment, which is not part of the query. The query of a URL (`SteamClient.Query`)
is read as section 3.4 of RFC 3986 and Go's `url.Parse` read it: the fragment,
from the first `#`, is cut off, and the query is what follows the first `?`.

## Model

| member | source | states |
|---|---|---|
| Errors.Error | error.go:12-17 | A client error's text starts with `steam client error: ` followed by the message. It is exactly that long when the parent is nil, and at least two characters longer when there is a parent. |
| Errors.Errorf | error.go:19-21 | The error keeps the parent it was given and stores the formatted text as its message. |
| Errors.ErrorfVerbatim | error.go:19-21 | With a message holding no verb and no arguments, the stored message is the text as written. |
| Errors.NilParentIsPrefix | error.go:13-16 | With a parent, the text is the nil-parent text plus `": "` plus the parent's text, so the nil-parent text is a prefix of it. |
| Errors.NilParentMessage | error.go:14 | The message reads back exactly from a nil-parent error's text, after the prefix. |
| Format.Sprintf | error.go:20 | A format holding no `%` renders as itself, followed by Go's `%!(EXTRA …)` list of the arguments when there are any. |
| Format.SprintfPlain | error.go:20 | Formatting a verb-free message with no arguments returns it unchanged. |
| Format.SprintfOneInt | client.go:65 | A format with one `%d` and one integer argument renders the argument in decimal in place of the verb. The text around it is unchanged. |
| Decimal.FormatUint | client.go:69 | The base-10 rendering is a non-empty digit string without leading zeros. It starts with `0` exactly when the value is 0. |
| Decimal.FormatInt | dota.go:22 | `%d` of an integer is the base-10 rendering of the value when it is not negative. Otherwise it is `-` followed by the rendering of the magnitude. It starts with `-` exactly when the value is negative, and every other character is a digit. |
| Decimal.ParseFormatUint | client.go:69 | Parsing the base-10 rendering of any 64-bit value gives the value back. |
| Decimal.FormatParseUint | player.go:8 | A canonical numeral that parses renders back to the same text. |
| Strings.Join | client.go:71 | Joining no parts gives the empty string; otherwise the result starts with the first part. |
| Strings.SplitJoin | client.go:71 | Splitting a joined non-empty list on its separator gives the list back, when no element holds the separator. |
| Strings.CountJoin | client.go:71 | A joined non-empty list holds one separator fewer than it has elements. |
| Strings.TrimSpace | dota.go:26 | The result has no white space at either end. It is the slice of the input that starts right after the leading white space, and everything after it in the input is white space. |
| Strings.TrimSpaceNewline | dota.go:26 | Trimming a string whose ends are not white space, plus one newline, removes exactly that newline. |
| Player.PlayerSummary.Oneline | player.go:23-25 | The text before the first tab is the decimal account id. |
| Player.PlayerFriend.Oneline | player.go:33-35 | The text before the first tab is the decimal account id. |
| Player.SummaryOnelineFields | player.go:24 | When the name and the URL hold no tab, the line splits on tabs into exactly: decimal id, persona name, profile URL. |
| Player.FriendOnelineFields | player.go:34 | When the relationship holds no tab, the line splits on tabs into exactly: decimal id, relationship, decimal friend-since time. |
| Player.OnelineIdParsesBack | player.go:23-35 | Whatever the other fields hold, the first field of either line parses back to the account id. |
| Player.DecodeSteamId | player.go:8 | `null` decodes to id 0. Any other text decodes exactly when it is a non-empty run of digits whose value fits in 64 bits, and then to that value. Leading zeros are accepted. |
| Player.SteamIdRoundTrip | player.go:8 | Encoding any 64-bit id as a string and decoding it gives the id back. An accepted numeral without leading zeros is exactly the rendering of the id it decodes to. |
| Player.LeadingZerosAccepted | player.go:8 | The text `0123` decodes to the id 123. |
| Player.SentinelRoundTrip | player.go:28 | The id 4294967295 survives the string encoding. |
| Dota.Writer.WriteLine | dota.go:57 | Writing a line appends it, and nothing else, to what the writer has received. |
| Dota.PlayerLine | dota.go:24 | A player line splits on tabs into `-`, `-`, `-`, then the decimal account id, player slot and hero id. |
| Dota.DotaMatch.HeaderLine | dota.go:22 | The header splits on tabs into the six decimal fields, in order: id, sequence number, start time, lobby type, radiant team, dire team. |
| Dota.DotaMatch.Lines | dota.go:22-25 | The summary has 1 + number-of-players lines: the header, then player `k`'s line at position `k + 1`. |
| Dota.DotaMatch.Oneline | dota.go:20-27 | The result is the lines joined by newlines. Adding one newline gives exactly the buffer the loop built, so only the buffer's final newline is removed. |
| Dota.TrimmedBuffer | dota.go:26 | Trimming the buffer of newline-terminated summary lines yields the lines joined by newlines. |
| Dota.OnelineEnds | dota.go:22-26 | The joined summary starts and ends with a digit, so trimming cannot remove anything from it. |
| Dota.LinesFreeOfNewline | dota.go:22-24 | No summary line holds a newline. |
| Dota.OnelineLines | dota.go:20-27 | The summary splits on newlines back into its lines: 1 + number-of-players of them, in order, with exactly one newline per player. |
| Dota.LabelLine | dota.go:61-75 | When the label holds no colon, the line splits at its one colon into the label and a space followed by the value in decimal. |
| Dota.DotaMatchPlayerDetails.DetailLines | dota.go:108-132 | A player's block has exactly 23 lines. |
| Dota.DotaMatchPlayerDetails.Display | dota.go:108-132 | Displaying a player appends exactly its 23 block lines to the writer. |
| Dota.LinesInWriteOrder | dota.go:109-131 | The block is `AccountId`, `PlayerSlot`, `HeroId`, `Item0`…`Item5`, `Kills`, …, `HeroHealing`, `Level`, each followed by `: ` and the field in decimal, in that order. |
| Dota.AbilityUpgradesNotShown | dota.go:105-132 | A player's block does not depend on the ability-upgrade timeline. |
| Dota.Blocks | dota.go:76-78 | There is one block per player, in list order, each of 23 lines. |
| Dota.OutcomeLine | dota.go:56-60 | The outcome line is `Radiant Victory` exactly when `RadiantWin` is true, and `Dire Victory` exactly when it is false. |
| Dota.DotaMatchDetails.FieldLines | dota.go:61-75 | There are 15 match field lines. |
| Dota.DotaMatchDetails.SummaryLines | dota.go:56-75 | The outcome line followed by the field lines makes 16 lines. |
| Dota.SummaryInWriteOrder | dota.go:61-75 | The field lines are `Duration`, `StartTime`, `Id`, …, `GameMode`, `Engine`, each followed by `: ` and the field in decimal, in that order. |
| Dota.DotaMatchDetails.DetailLines | dota.go:55-79 | A match dump has 16 + 23 × number-of-players lines. |
| Dota.DotaMatchDetails.Display | dota.go:55-79 | Displaying a match appends exactly the dump to the writer: summary lines, then every player's block. |
| Dota.DisplayPlayers | dota.go:76-78 | The player loop appends each player's block, in list order, and nothing else. |
| Dota.BlocksSnoc | dota.go:76-78 | Displaying one more player extends the output by exactly that player's block. |
| Dota.DetailsLayout | dota.go:55-79 | The dump has 16 + 23 × number-of-players lines. Line 0 is `Radiant Victory` exactly when `RadiantWin` is true, and `Dire Victory` exactly when it is false. Lines 0-15 are the summary. Lines `16 + 23k` to `16 + 23k + 22` are player `k`'s block. |
| SteamClient.MethodUrl | client.go:20-21 | Every URL from the template starts with `https://api.steampowered.com/`. |
| SteamClient.QueryOfMethodUrl | client.go:21 | The query of a template URL with text appended is `key=<key>` followed by that text, up to the first `#`. |
| SteamClient.WithParam | client.go:26 | Appending a parameter keeps the URL as a prefix and adds exactly `&`, the name, `=` and the value, so the URL ends with the value. |
| SteamClient.MethodUrlFields | client.go:21 | Whatever text is appended, the endpoint between the host and the first `?` is exactly interface, method and version, each followed by `/`. The query is `key=<key>` followed by the appended text, up to the first `#`. |
| SteamClient.ParamQuery | client.go:26 | With one parameter appended, the query parameters are the key and then that parameter, when neither holds a `&` or a `#`. |
| SteamClient.TwoParamQuery | client.go:49 | Two `&`-separated pieces after the key read back as two further query parameters, when none of the three holds `&` or `#`. |
| SteamClient.FriendListUrl | client.go:26 | The friend-list URL starts with the host and names the endpoint `ISteamUser/GetFriendList/v1/`. When the key holds neither `&` nor `#`, its query parameters are the key, then `steamid=` with the id in decimal, which parses back to the id. |
| SteamClient.VanityUrl | client.go:49 | The vanity URL starts with the host, names the endpoint `ISteamUser/ResolveVanityURL/v0001/`, and ends with the vanity text, unescaped. When neither the key nor the text holds `&` or `#`, its query parameters are the key, then `vanityurl=` and the text. |
| SteamClient.VanityNotEscaped | client.go:49 | A vanity text `a&b` yields three query parameters: the key, `vanityurl=a` and `b` (for a key and pieces free of `&` and `#`). |
| SteamClient.VanityFragment | client.go:49 | A vanity text `a#b` yields the query parameters the key and `vanityurl=a`: the text from the `#` on is the fragment. |
| SteamClient.SummariesUrl | client.go:72 | The summaries URL starts with the host and names the endpoint `ISteamUser/GetPlayerSummaries/v0002/`. When neither the key nor the id list holds `&` or `#`, its query parameters are the key, then `steamids=` and the id list. `IdList` never holds either. |
| SteamClient.IdStrings | client.go:67-70 | There is one rendering per id, in input order. None holds a comma. Each is canonical (no leading zeros) and parses back to its id, so it is the `strconv.FormatUint` text. |
| SteamClient.IdList | client.go:67-71 | The joined id list is empty exactly when there are no ids, and never holds a `&` or a `#`. |
| SteamClient.IdListRoundTrip | client.go:67-71 | Splitting a non-empty id list on commas and parsing each piece gives back the ids, in order. |
| SteamClient.IdListCommas | client.go:67-71 | A non-empty list of n ids holds n - 1 commas; the empty list is the empty string. |
| SteamClient.CapMessage | client.go:65 | The cap error's message is `GetPlayerSummaries accepts a max of 100 ids, saw ` followed by the count in decimal. |
| SteamClient.GetFriendList | client.go:25-40 | The call requests the friend-list URL. It returns no error exactly when the reply decoded, and then the decoded friends. Otherwise it returns no friends and an error whose parent is the transport or decoding error, with the message for that stage. |
| SteamClient.ResolveVanityUrl | client.go:42-61 | The call requests the vanity URL. It returns no error exactly when the reply decoded with `success == 1`, and then the decoded id. Otherwise it returns id 0 and an error. A status other than 1 gives an error with no parent, whose text carries no cause. |
| SteamClient.GetPlayerSummaries | client.go:63-86 | More than 100 ids means no request, no players, and the cap error with a nil parent. Exactly 100 or fewer requests the summaries URL with the comma-joined ids. Success means no error and the decoded players; otherwise no players and the wrapped error for that stage. |

## Left out

- `http.Get` is not modelled: the network round trip is I/O. Its outcome is a `Reply` parameter, and the model records only the URL passed to it.
- JSON decoding by `encoding/json` is not modelled: it is a foreign library. The decoded payload is part of the `Reply`. The struct tags are not checked either, including the `radian_team_id` and `radian_win` spellings in `dota.go`. Only the `,string` rule for `steamid` is modelled, as `Player.DecodeSteamId`: the quoted text, unless it is `null`, goes to `strconv.ParseUint(s, 10, 64)`, so leading zeros are accepted. `encoding/json` itself is not part of this model.
- The commented-out API listing at the end of `client.go` is not modelled: it is sample data, not code.
- The `cmd/` command-line program is not modelled. This covers command dispatch, `tabwriter` output, the environment lookup of the key and process exit. `cmd/` is not part of this model.
- `DotaMatchHistory` and the `DotaMatchDetails` client method are not modelled: none of the available source files defines them.
- SteamClient.GetFriendList: a nil slice and an empty slice are both the empty sequence, so "returns nil" is stated as "returns no elements". The same holds for `GetPlayerSummaries`.
- SteamClient.ParamQuery: the query read-back is stated only for keys and values without `&` and `#`. The code does not escape them, so a `&` changes the parameter list (`VanityNotEscaped`) and a `#` ends the query (`VanityFragment`).
- Format.Sprintf: modelled only for the formats passed to `errorf`, with the verbs `%d` and `%%` and integer arguments. Every other formatted string is written out as string concatenation: the URL templates of `client.go:21`, `26`, `49` and `72` (`%s`, `%d`) in MethodUrl and WithParam, the `Fprintf` lines of `dota.go` (`%d`) in HeaderLine, PlayerLine and LabelLine, and the `%s`, `%d` and `%v` of `error.go` and `player.go` in Error and the Oneline methods.
- Dota.Writer.WriteLine: each `Fprintf`/`Fprintln` call is one appended line, and write errors from the `io.Writer` are ignored, as the Go code ignores them. The bytes are not modelled separately from the lines.
- Dota.DisplayPlayers: the player loop of `DotaMatchDetails.Display` is a separate method with the same effect. The loop and the fifteen writes before it are verified separately.
- Go's `int` is modelled as 64 bits wide (`GoBase.int64`), its size on 64-bit platforms; the source does not fix the platform. Only `%d` rendering is applied to such values, so no arithmetic wrap-around arises.

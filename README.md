# Fireverse auto-runner: a verified model of its bookkeeping

`autorun.js` signs a pool of Ethereum wallets in to the Fireverse music service, stores the
bearer tokens it obtains in `tokens.txt`, and then, for every token, runs a `FireverseMusicBot`. The bot
plays up to 25 recommended songs, counts the seconds it listens and sends a heartbeat at most once
every 30 seconds. Proxies from `proxy.txt` are handed out round-robin.

This project models the deterministic part of that script in Dafny:

- `Text`: the string primitives the script relies on. These are ECMAScript `trim`, `split` and
  `join` on one character, `toLowerCase`, and decimal rendering.
- `LineFiles`: the two line-oriented readers, `readTokensFromFile` and `loadProxies`, with the
  proxy-line parser.
- `WalletKeys`: the `Private Key: 0x…` scan of the wallet file.
- `TimeFormat`: `formatTime` and a reader for its output.
- `Player`: the `FireverseMusicBot` class with its mutable fields and the methods `sendHeartbeat`,
  `processMusic` and `performTasks`. Each method is proved against specification functions.
  - `Pick` and `FirstOccurrences` say which songs are played.
  - `Account` says what the bookkeeping becomes.
  - `HeartbeatRun` says when heartbeats are recorded during one song, `BeatRuns` over a run of songs.
- `Auth`: the sign-in sequence of `processWallet`, the EIP-4361 message template, and
  `getTokensFromWallets`.
- `Scheduler`: one pass of `main`'s loop. It generates tokens, reads them back, stops when there is
  none, and otherwise runs a bot per token with a round-robin proxy.

Network replies, the clock and file contents are inputs. A `Service` value answers the bot's
requests and the clock. A `Replies` value answers a wallet's sign-in. File contents are
`Option<string>`, `None` when the file is missing or unreadable.

## Model

| member | source | states |
|---|---|---|
| LineFiles.CleanLines | autorun.js:31-35 | The lines kept from a file's content are non-empty, trimmed, contain no line break and do not start with '#'. |
| LineFiles.CleanFacts | autorun.js:33-35 | Cleaning keeps at most as many lines as it is given, and every kept line is clean. |
| LineFiles.CleanKeepsCleanLines | autorun.js:33-35 | Lines that are already clean all survive, in order. |
| LineFiles.CleanLinesConcat | autorun.js:31-35 | Lines are kept in file order: the kept lines of `a + "\n" + b` are those of `a` followed by those of `b`. |
| LineFiles.TokenFileRoundTrip | autorun.js:433-456 | Tokens that are non-empty, trimmed, free of line breaks and not starting with '#', written with `join('\n')`, are read back by `readTokensFromFile` as exactly the same list. |
| LineFiles.ParseProxyUrl | autorun.js:37-39 | The url parsed from a kept proxy line is non-empty, '#'-free and trimmed, and starts with the line's first character. |
| LineFiles.ProxyWithoutType | autorun.js:38-39 | A line without '#' is entirely url (trimmed), and its type defaults to `http`. |
| LineFiles.ProxyWithType | autorun.js:38-39 | For `url#type` or `url#type#…`, the type is the trimmed, lowercased text between the first two '#'. An empty type stays empty. |
| LineFiles.ParseProxies | autorun.js:37-40 | One descriptor per line; every url is usable when the lines are clean. |
| LineFiles.ParseProxiesAppend | autorun.js:37-40 | Parsing works line by line: descriptors of a concatenation are those of each part, in order. |
| LineFiles.LoadProxies | autorun.js:29-47 | Every proxy loaded has a non-empty, '#'-free, trimmed url. No file gives no proxy. |
| LineFiles.LoadProxiesConcat | autorun.js:29-47 | Proxies come in file order. |
| LineFiles.KeepFacts | autorun.js:34-35 | A raw line yields at most one clean line. A line that is already clean yields itself. |
| Text.TrimmedTrim | autorun.js:34 | `trim()` leaves no surrounding white space and is the identity on trimmed text. |
| Text.TrimExcludes | autorun.js:34 | Trimming adds no character. |
| Text.SplitPiecesLackSep | autorun.js:33 | No piece of `split(sep)` contains the separator. |
| Text.SplitNoSep | autorun.js:38 | Text without the separator splits into itself alone. |
| Text.SplitAppend | autorun.js:33 | Splitting at a separator splits the two sides independently. |
| Text.SplitJoin | autorun.js:433 | Joining separator-free parts and splitting again gives back the parts. |
| Text.JoinSplit | autorun.js:433 | Splitting then joining gives back the text. |
| Text.Lower | autorun.js:39 | `toLowerCase` keeps the length and leaves no upper-case letter: each one moves 32 code points to its lower-case partner, and every other character is kept. |
| Text.LowerIdempotent | autorun.js:39 | Lowercasing an already lowercased type changes nothing. |
| Text.Digits | autorun.js:102 | `toString()` of a natural is digits only, with no leading zero. |
| Text.ValueOfDigits | autorun.js:102 | The decimal rendering denotes the number. |
| WalletKeys.ScanKeysSound | autorun.js:407-408 | Every extracted key is `0x` and 64 hex digits, and a content of length L yields at most L / 79 keys. |
| WalletKeys.ScanKeyFile | autorun.js:407-408 | A file of `Private Key: <key>` lines yields exactly those keys, in order. |
| WalletKeys.SkipNewline | autorun.js:407 | A line break cannot start a match. |
| TimeFormat.ClockFields | autorun.js:99-101 | hours·3600 + minutes·60 + seconds equals the input, with minutes and seconds below 60. |
| TimeFormat.PaddedDigits | autorun.js:102 | A padded field is at least two digits, exactly two below 100, and denotes its number. |
| TimeFormat.FormatTimeRoundTrip | autorun.js:98-103 | Reading `formatTime(s)` back as `HH:MM:SS` gives `s`. So minutes and seconds have two digits, hours at least two, and distinct counts render differently. |
| Player.ResolveDuration | autorun.js:255 | The duration is the first truthy value among the detail's duration, the song's duration and 180. It is never 0. |
| Player.TotalListeningAppend | autorun.js:266-269 | The listening time of songs played one after another adds up. |
| Player.HeartbeatRunSpaced | autorun.js:166-181 | For any clock, the heartbeats recorded during a song are at least 30 000 ms apart and after the previous one, and the last recorded time is the latest. |
| Player.PacedSpaced | autorun.js:169-175 | Consecutive spacing of successful heartbeats gives at least 30 000 ms between any two. |
| Player.SpacedBound | autorun.js:169 | Spaced heartbeats within `[lo, hi]` number at most `(hi − lo) / 30000 + 1`. |
| Player.PacedExtend | autorun.js:166-181 | A paced heartbeat log followed by times spaced 30 000 ms apart from its latest entry stays paced, and the last of those times becomes the latest. |
| Player.PacedRuns | autorun.js:266-267 | A paced log with `lastHeartbeat` as its latest entry stays paced after the heartbeats of any run of songs, and `lastHeartbeat` stays its latest entry. |
| Player.FireverseMusicBot.HeartbeatsApart | autorun.js:169-175 | While a bot's heartbeats are paced, any two successful heartbeats are at least 30 000 ms apart and after its construction. |
| Player.PickIsQuotaOfFirstOccurrences | autorun.js:290-296 | The songs played are the first `room` songs with new ids, first occurrences only. At most `room` are played. |
| Player.FirstOccurrencesFresh | autorun.js:292-294 | The songs with new ids have pairwise distinct ids, none already played, and each is a candidate. |
| Player.FirstOccurrencesComplete | autorun.js:292-294 | Every candidate id is either already played or among the new songs. |
| Player.AccountFacts | autorun.js:294-296 | Processing songs adds their ids to the played set, their number to the count, the songs themselves to the processed list and their listening time to the total. |
| Player.AccountKeepsIdSet | autorun.js:294-295 | When the played ids are those of the processed songs, they stay so whatever songs are processed next. |
| Player.IdSetConcat | autorun.js:294 | The ids of two runs of songs together are the ids of each. |
| Player.BeatRunsSpaced | autorun.js:266-267 | Across any number of songs, each song's ticks starting from the `lastHeartbeat` the previous one left, the heartbeats stay 30 000 ms apart, the first one 30 000 ms after the start, and the final `lastHeartbeat` is the latest of them. |
| Player.PlayFromPicks | autorun.js:290-296 | From any point of `performTasks`'s loop, the bookkeeping it ends with is `Account` of the songs `Pick` selects from the remaining candidates. |
| Player.BeatsFromRuns | autorun.js:290-296 | From any point of the loop, the heartbeat state it ends with is the current log followed by `BeatRuns` of the songs `Pick` selects, and `lastHeartbeat` is the one `BeatRuns` leaves. |
| Player.TasksDone | autorun.js:290-296 | The whole loop leaves `Account` and `BeatRuns` of the picked songs, and keeps the played ids those of the processed songs. |
| Player.IdSetSize | autorun.js:292-294 | A sequence of songs has no more distinct ids than songs, and as many only when no id repeats. |
| Player.FireverseMusicBot.NoSongProcessedTwice | autorun.js:292-294 | While the bot's invariant holds, no song id has been handed to `processMusic` twice. |
| Player.GetUserInfoNeverThrows | autorun.js:124-137 | `getUserInfo` never throws: a failed request or a null `data.data` gives `null`, and the user's data comes back exactly when the reply carries it. |
| Player.FireverseMusicBot.constructor | autorun.js:76-84 | A new bot has no played song, a count of 0, no listening time, and `lastHeartbeat` at the construction time. |
| Player.FireverseMusicBot.Initialize | autorun.js:114-137 | For every user-info reply, initialization reports success, because `getUserInfo` catches the errors of its request and of reading the reply. |
| Player.FireverseMusicBot.SendHeartbeat | autorun.js:166-181 | It posts exactly when `now − lastHeartbeat ≥ 30000`. It moves `lastHeartbeat` to `now` only after a successful post, and keeps heartbeats spaced when they were spaced before. |
| Player.FireverseMusicBot.ProcessMusic | autorun.js:249-284 | It reports `playMusic`'s result. On success it runs exactly `duration` ticks and adds them to `totalListeningTime`. On failure nothing changes. Heartbeats follow `HeartbeatRun`, and stay spaced when they were spaced before. |
| Player.FireverseMusicBot.PlayNewSong | autorun.js:294-296 | An unplayed song is marked played, processed and counted whether or not processing succeeded. The bookkeeping becomes `Record` of it, and `lastHeartbeat` and the heartbeat log move as `HeartbeatRun` over its ticks says, the log only appended to. Heartbeats stay spaced when they were spaced before. |
| Player.FireverseMusicBot.PlayCandidates | autorun.js:290-296 | The `for` loop leaves the bookkeeping `PlayFrom` gives and the heartbeat state `BeatsFrom` gives from its first candidate, and the count stays the number of played ids. |
| Player.FireverseMusicBot.PerformTasks | autorun.js:286-316 | It plays exactly the songs `Pick` selects, in order, and the bookkeeping becomes `Account` of them. The count never passes 25 and equals the number of distinct played ids. `lastHeartbeat` and the heartbeat log become those `BeatRuns` gives for the picked songs, the log is only appended to and stays spaced, and no id is played twice when none was before. |
| Auth.SignInMessageLines | autorun.js:342 | When address, nonce and time have no line break, the signed message splits back into exactly the template's ten lines. |
| Auth.ProcessWalletProtocol | autorun.js:372-401 | Requests are a prefix of session, nonce, verify. A nonce is requested only after a truthy session, and verify only after a truthy nonce, carrying that nonce. A token is returned iff verification succeeded with data carrying one. |
| Auth.NoNonceNoVerify | autorun.js:382-383 | With no (or an empty) nonce, no verify request is made. |
| Auth.CollectedFacts | autorun.js:419-425 | There is at most one token per wallet, none is empty, and each is some wallet's sign-in token. |
| Auth.CollectedAll | autorun.js:419-425 | When every wallet signs in, every token is kept, in wallet order. |
| Auth.CollectedPrefix | autorun.js:419-425 | Tokens are only appended: those kept from fewer wallets are a prefix of those kept from more. |
| Auth.CollectedComplete | autorun.js:419-425 | For any mix of successes and failures, every wallet's token is kept, right after the tokens of the wallets before it. |
| Auth.CollectedOrder | autorun.js:419-425 | For any two wallets that sign in with a token, both tokens are kept, the earlier wallet's at a lower position than the later one's. |
| Auth.GetTokensFromWallets | autorun.js:403-440 | An unreadable wallet file or one without keys leaves the token file untouched. Otherwise the file becomes the collected tokens joined by line breaks. |
| Auth.StaleTokensKept | autorun.js:410-413 | Without usable wallets, the tokens read afterwards are the old ones. |
| Auth.FailedSignInsEmptyTokenFile | autorun.js:419-433 | When keys exist but no wallet obtains a token, the token file is emptied and no token is read. |
| Auth.GeneratedTokensReadBack | autorun.js:433 | The tokens written are read back in wallet order, provided each is storable. |
| Scheduler.RoundRobin | autorun.js:506 | There is no proxy exactly when the list is empty. Token `i < len` gets proxy `i`, and tokens `i` and `i + len` share one. |
| Scheduler.RoundRobinBalanced | autorun.js:506 | Of the first `n` tokens, proxy slot `k` serves `n / len` tokens, plus one if `k < n % len`. |
| Scheduler.RoundRobinRound | autorun.js:506 | Each full round of `len` tokens gives every proxy slot exactly one more token. |
| Scheduler.RoundRobinFair | autorun.js:506 | No proxy serves more than one token beyond any other. |
| Scheduler.ProcessTokenAndTasks | autorun.js:458-472 | Bot number `i + 1` is created, initialized and run once. It plays the first new songs up to the quota, and its count equals its number of played ids. |
| Scheduler.ExpectedRunPlays | autorun.js:290-296 | An account plays min(25, number of distinct candidate ids) songs, a prefix of the first occurrences. |
| Scheduler.ProcessTokens | autorun.js:503-514 | One run per token, in file order, token `i` with round-robin proxy `i`. |
| Scheduler.RunCycle | autorun.js:491-517 | The cycle refreshes the token file and stops iff no token is read back. Otherwise it runs every token's account in order with its round-robin proxy. |
| Scheduler.CycleRunsSignedInWallets | autorun.js:491-495 | With keys in the wallet file and storable tokens, the accounts run are those of the wallets that signed in, in wallet order. |

## Left out

- HTTP: the axios requests, headers and responses become inputs (`Service`, `Replies`). `createAxiosInstance` and the proxy agents are not modelled; the proxy descriptor is only passed to the bot. The agent classes are never imported in the source, so agent creation would fall back to a direct connection anyway.
- Cryptography: wallet derivation, `hashMessage` and signing. The wallet address is an input and the verify request is modelled by the message's parameters.
- The time of signing (`new Date().toISOString()`) is an input string.
- File I/O: `existsSync`, `readFileSync`, `writeFileSync` and the log stream. File contents are values. A failing write, which the source catches, is not modelled.
- `readline` and `rl.close()`: no effect on the modelled state.
- Timers and sleeps: treated as no-ops. `Date.now()` is the `clock` input, one reading per tick.
- Console output, emoji status lines and `log`: user interface only.
- `getUserInfo`'s request becomes its reply (`UserInfoReply`), an input. `getUserInfo` logs the user data itself (autorun.js:131), and its result is dropped both by `initialize` (autorun.js:116) and by the refresh `performTasks` makes after every song (autorun.js:301). That refresh never throws and changes no field, so it is left out of `PlayNewSong`.
- `likeMusic`, `commentMusic`, `endMusic`: their results are ignored by the source, so they change nothing modelled. The random comment choice is not modelled.
- The endless `while (true)` with its 16-hour wait: one cycle is modelled, with the empty-tokens exit.
- Text.Lower: ASCII letters only; Unicode case mapping is not modelled.
- Player.ResolveDuration: durations are integers. Fractional and string durations, whose countdown behaves differently in JavaScript, are not modelled.
- Service answers are keyed by song id. This loses nothing, because each id is played at most once per bot.
- Exceptions inside a sign-in are modelled as that wallet yielding no token, which is what the source's `catch` does. `keyAccepted` stands for `new ethers.Wallet(key)` accepting the key.

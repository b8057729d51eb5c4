# term-check in Dafny

term-check is a GitHub App. It receives webhook events. For every pull request an event
concerns, it fetches the pull request's diff and scans every line of each hunk's new range for
the configured flagged terms (for example master and slave). It then posts one check run
for the pull request's head commit. The check run carries one warning annotation per line
that contains a term. Its conclusion is "neutral" when there is at least one annotation and
"success" otherwise. A repository can exempt paths, using gitignore-style patterns listed
under `ignore` in `./.github/inclusive_lang.yaml` at the head commit.

This project models the core of that program and proves properties about it:

- `Bot` (bot.dfy) models event filtering and dispatch, the scan, building annotations and
  building the check run. Each of these is a specification function over values. The program's
  operations are written as methods, and each method is proved equal to its specification
  function. `Bot.CreateCheckRuns` (the loop over an event's pull requests),
  `Bot.CreateAnnotations`, `Bot.ScanHunks` and `Bot.ScanLines` (the loops over files, hunks
  and lines) carry loop invariants. `Bot.HandleEvent` (early returns, then the pull requests)
  and `Bot.CreateCheckRun` (build the options, then set conclusion and summary) have no loop.
- `BotProperties` (bot_properties.dfy) holds what the bot promises:
  - event filtering;
  - independence of the pull requests of one event;
  - a reference definition of the scan ("the lines that contain a term"), proved equal to it;
  - the shape of every annotation;
  - ignore handling that fails open;
  - four concrete cases: a line `slave_ip = "1.2.3.4"` of `config.py` with the terms master
    and slave; the same file under a matching ignore pattern; a hunk that only removes lines;
    and the bodies "Found: %s" and "Found flagged terms".
- `Lib` (lib.dfy) models set membership and order-preserving deduplication.
- `ConfigUtil` (config_util.dfy) models environment lookup with a fallback and reading the
  secrets directory.
- `Config` (config.dfy) models loading the bot, client and server configuration, and the
  per-repository configuration.
- Supporting modules model the parts of Go's library the core relies on:
  - `GoStrings`: `strings.HasPrefix`, `Contains`, `Join`, `Split(s, sep)[0]` and `TrimSpace`;
  - `Fmt`: `fmt.Sprintf` with one string argument;
  - `TermRegex`: the regular expression built from the term list, for literal terms;
  - `GitHub` and `Diff`: the payload and diff shapes;
  - `Wrappers`: `Option` and `Result`.

Calls into code that is not modelled are parameters. The program's HTTP client is
`GitHub.Api`: its raw-diff and file-contents replies are functions of the request. The diff
parser, the gitignore compiler and YAML decoding are held in `Bot.Libraries` and
`Config.Yaml`. The directory listing and file reads are `ConfigUtil.FileSystem`, and the
environment is `ConfigUtil.LookupEnv`. The model of `HandleEvent` returns the check runs the
bot would post, in order, instead of posting them.

The model follows the code as written. In particular:

- there is no cache of repository configurations; the configuration is fetched again for every file;
- the pull-request allow-list is exactly opened and reopened (no synchronize);
- files are not filtered by mode, so a deleted file is scanned like any other
  (`BotProperties.FileModeNotRead`);
- lines are not filtered by mode: every line of a hunk's new range is scanned, including
  unchanged context lines (`BotProperties.LineModeNotRead`).

## Model

| member | source | states |
|---|---|---|
| BotProperties.AllowLists | internal/bot/bot.go:30-42 | check suites are handled for requested and rerequested, check runs for rerequested, pull requests for opened and reopened, and for no other action |
| Lib.Contains | pkg/lib/lib.go:4-7 | true exactly when the item is a key of the set |
| Lib.Unique | pkg/lib/lib.go:10-22 | the result keeps the first occurrence of each element in input order (equal to `Dedup`), has no duplicates and has exactly the input's elements |
| Lib.Dedup | pkg/lib/lib.go:10-22 | the deduplicated list is no longer than its input, has the same elements and no duplicates |
| Lib.DedupFirstOccurrenceOrder | pkg/lib/lib.go:13-19 | the kept elements appear in the order of their first occurrences in the input |
| Lib.DedupOfNoDuplicates | pkg/lib/lib.go:13-19 | a list without duplicates is returned unchanged |
| Lib.DedupShorterWithDuplicates | pkg/lib/lib.go:13-19 | a list with a duplicate loses at least one element |
| Lib.DedupLength | pkg/lib/lib.go:13-19 | the result has the input's length exactly when the input has no duplicates |
| Lib.DedupIdempotent | pkg/lib/lib.go:10-22 | deduplicating twice is deduplicating once |
| Lib.DedupEmpty | pkg/lib/lib.go:10-22 | an empty slice gives an empty result |
| ConfigUtil.Env | pkg/config/config.go:40-51 | a set variable gives its value (even when empty); an unset one gives the fallback when that is non-empty, and otherwise the fatal "Environment variable is not set: NAME" |
| ConfigUtil.EnvEmptyOnlyWhenSetEmpty | pkg/config/config.go:40-51 | the empty value is returned only for a variable set to the empty string, and the fatal path is taken exactly when the variable is unset and the fallback is empty |
| ConfigUtil.EnvSuccessfulLookup | pkg/config/config_test.go:24-31 | ABC set to 123 gives 123 |
| ConfigUtil.EnvBackupValue | pkg/config/config_test.go:32-39 | ABC unset with fallback EFG gives EFG |
| ConfigUtil.EnvPanicNotFound | pkg/config/config_test.go:40-47 | ABC unset without fallback takes the fatal path, naming ABC |
| ConfigUtil.ReadSecrets | pkg/config/config.go:59-80 | the map and error equal `SecretsOf`; every entry is the trimmed content of the file of that name; an unreadable directory gives an empty map and its error |
| ConfigUtil.Secrets | pkg/config/config.go:54-57 | reads the secrets of the directory /secrets |
| ConfigUtil.CollectStored | pkg/config/config.go:67-77 | every collected entry is the whitespace-trimmed content of the file of that name |
| ConfigUtil.CollectKeys | pkg/config/config.go:67-77 | only listed names become keys |
| ConfigUtil.CollectComplete | pkg/config/config.go:67-79 | there is no error exactly when every listed file is hidden or readable, and then every file not starting with "." is a key |
| ConfigUtil.CollectStopsAtFirstError | pkg/config/config.go:72-75 | the first unreadable file stops the scan: the result holds the files before it and its error, whatever follows |
| ConfigUtil.TestReadSecrets | pkg/config/config_test.go:76-96 | a directory with foo holding "bar\n" and .done gives exactly {foo: bar} and no error |
| ConfigUtil.TrimBarNewline | pkg/config/config_test.go:77-95 | trimming "bar\n" gives "bar" |
| GoStrings.TrimSpace | pkg/config/config.go:76 | the result is a substring of the input with no leading or trailing Unicode space, and only space was removed around it |
| GoStrings.CutBefore | internal/bot/bot.go:248 | the part before the first occurrence of the separator: a prefix of the input that does not contain the separator and is followed by it, or the whole input when it does not contain the separator |
| Config.GetBotConfig | internal/config/config.go:130-144 | an error exactly when the decoded term list is empty, and then the empty configuration; otherwise the decoded configuration, with a non-empty term list |
| Config.GetClientConfig | internal/config/config.go:146-156 | never fails, and returns the decoded client configuration |
| Config.GetServerConfig | internal/config/config.go:158-168 | succeeds exactly when WEBHOOK_SECRET_KEY is a secret, and then carries its value; otherwise the empty configuration and an error |
| Config.GetRepoConfig | internal/config/config.go:103-124 | a fetched file (no error, content decoded, status 200) gives the decoded configuration; anything else gives the empty configuration with no ignore list |
| Config.GetRepoConfigAsksOnlyForConfigFile | internal/config/config.go:107-113 | the result depends only on the reply for ./.github/inclusive_lang.yaml at the given ref |
| Config.New | internal/config/config.go:62-100 | halts on an unreadable secrets directory, an unreadable configuration file, an empty term list or a missing webhook secret, and otherwise returns the three configurations built from the file and the secrets |
| TermRegex.FirstTermAt | internal/bot/bot.go:224 | the leftmost alternative of the term pattern that matches at the start of the text, or none when no term is a prefix |
| TermRegex.FindAll | internal/bot/bot.go:224-236 | every match is one of the terms and occurs in the line |
| TermRegex.FindAllNonEmpty | internal/bot/bot.go:236 | there is a match exactly when some term occurs in the line |
| TermRegex.FindAllSingle | internal/bot/bot.go:236 | a line starting with a term, where no earlier term matches and no term occurs after it, has exactly that one match |
| Fmt.FormatOneSlot | internal/bot/bot.go:247 | a body with one %s and no other % gets the argument in place of the slot |
| Fmt.FormatWithoutVerb | internal/bot/bot.go:247 | a body without a verb prints itself followed by the %!(EXTRA string=...) report |
| Bot.Matches | internal/bot/bot.go:236 | exactly the distinct terms the matcher finds in the line, each once, in the order of their first match; each is a listed term occurring in the line, and the list is non-empty exactly when some term occurs |
| Bot.Message | internal/bot/bot.go:247-248 | the formatted body cut before its first "%!": a prefix of it that never contains "%!" and is either the whole formatted body or followed there by "%!" |
| Bot.CreateAnnotation | internal/bot/bot.go:246-258 | the annotation has the file's new name as path, the line's number as start and end, level warning, the configured title, and `Message` of the matched terms as message, which is free of "%!" |
| Bot.Dispatch | internal/bot/bot.go:104-157 | the pull requests an event leads to: none for an unrecognised event or for a check event of another app; otherwise none or exactly the event's pull requests |
| Fmt.Sprintf | internal/bot/bot.go:247 | Go's formatting of one string argument with the verbs %s and %%, stated by `Fmt.FormatOneSlot` and `Fmt.FormatWithoutVerb` |
| Fmt.Render | internal/bot/bot.go:247 | the first %s prints the argument, later ones %!s(MISSING), %% prints %, and an unused argument is reported at the end |
| GoStrings.Join | internal/bot/bot.go:247 | `strings.Join`: the elements with the separator between them; a single element is returned as it is |
| GoStrings.HasPrefix | pkg/config/config.go:69 | `strings.HasPrefix`: the string starts with the prefix |
| GoStrings.IsSpace | pkg/config/config.go:76 | `unicode.IsSpace`: the Unicode White_Space characters that `strings.TrimSpace` removes |
| Bot.IgnoredByRepo | internal/bot/bot.go:260-274 | no ignore list, or patterns that do not compile, mean not ignored; otherwise the compiled matcher decides the path |
| Bot.CreateAnnotations | internal/bot/bot.go:203-244 | the annotations and error equal `AnnotationsFor`: a failed diff request, a non-200 status or a diff that does not parse give no annotations and an error, and otherwise every file's annotations in order |
| Bot.ScanHunks | internal/bot/bot.go:233-240 | the annotations of the file's hunks, hunk by hunk, in order |
| Bot.ScanLines | internal/bot/bot.go:235-239 | one annotation per line of the new range with a non-empty match list, in line order |
| Bot.CheckRunOptionsFor | internal/bot/bot.go:173-193 | status completed; conclusion neutral with the failure summary exactly when there are annotations, success with the success summary exactly when there are none; the annotations and their count |
| Bot.CreateCheckRun | internal/bot/bot.go:163-201 | the check run posted equals `CheckRunFor`; no check run is posted exactly when the annotations could not be produced |
| Bot.CreateCheckRuns | internal/bot/bot.go:117-119 | the check runs of the pull requests, in order, equal `PostsFor` |
| Bot.HandleEvent | internal/bot/bot.go:96-161 | the check runs posted for an event equal `EventPosts` |
| BotProperties.ForeignAppIgnored | internal/bot/bot.go:104-129 | a check-suite or check-run event of another app posts nothing |
| BotProperties.UnlistedActionIgnored | internal/bot/bot.go:108-157 | an action off its allow-list, or an unrecognised event, posts nothing |
| BotProperties.AcceptedEventDispatch | internal/bot/bot.go:113-155 | an accepted check event processes exactly its pull requests in order; an accepted pull-request event processes its pull request whatever the app id |
| BotProperties.PostsForAppend | internal/bot/bot.go:117-119 | the check runs for two lists of pull requests are the check runs of the first followed by those of the second |
| BotProperties.FailedPullRequestIsolated | internal/bot/bot.go:167-171 | a pull request whose annotations fail posts nothing and does not change what the others post |
| BotProperties.PostsForAllScanned | internal/bot/bot.go:117-119 | when every pull request can be scanned, the k-th check run is that of the k-th pull request |
| BotProperties.PostsForSound | internal/bot/bot.go:117-119 | no more check runs than pull requests, and each one is for the head commit of a successfully scanned pull request and carries its annotations |
| BotProperties.PostsForOnePerPullRequest | internal/bot/bot.go:117-119 | the k-th check run is the one of the pull request at the k-th posted position, and these positions strictly increase, so no pull request gets two check runs |
| BotProperties.PostedIndicesExact | internal/bot/bot.go:163-171 | a pull request is among the posted positions exactly when its check run can be built |
| BotProperties.DiffFetchFailureStops | internal/bot/bot.go:207-217 | a failed diff request or a non-200 status yields no annotations, a fetch error, and no check run |
| BotProperties.DiffParseFailureStops | internal/bot/bot.go:218-222 | a diff that does not parse yields no annotations, a parse error, and no check run |
| BotProperties.CheckRunReportsScan | internal/bot/bot.go:163-195 | a successful scan is posted to the event's repository with exactly the scan's annotations, their count, status completed, and conclusion neutral exactly when there are annotations |
| BotProperties.FlaggedLinesMembers | internal/bot/bot.go:235-236 | the reference scan keeps exactly the lines in which some term occurs |
| BotProperties.AnnotateEachAt | internal/bot/bot.go:237 | one annotation per kept line, the k-th for the k-th line |
| BotProperties.LinesAnnotationsAreFlaggedLines | internal/bot/bot.go:235-239 | the scan of a new range equals the reference: annotate each line that contains a term, once, in line order |
| BotProperties.LineModeNotRead | internal/bot/bot.go:234-236 | a line's mode does not affect its annotation, so unchanged context lines are scanned like added ones |
| BotProperties.FileModeNotRead | internal/bot/bot.go:227-240 | a file's mode does not affect its annotations |
| BotProperties.LinesFileModeNotRead | internal/bot/bot.go:235-239 | a file's mode does not affect the annotations of its lines |
| BotProperties.OrigRangeNotRead | internal/bot/bot.go:233-235 | only the new range of each hunk is scanned; the original range never matters |
| BotProperties.FilesAnnotationsAppend | internal/bot/bot.go:227-241 | the annotations of two lists of files are those of the first followed by those of the second |
| BotProperties.IgnoredFileContributesNothing | internal/bot/bot.go:228-231 | an ignored file adds no annotation and leaves the others unchanged |
| BotProperties.LinesAnnotationsWellFormed | internal/bot/bot.go:235-258 | every annotation of a range is a one-line warning with the configured title, the file's path, a message free of "%!", and the number of one of the range's lines |
| BotProperties.HunksAnnotationsWellFormed | internal/bot/bot.go:233-240 | every annotation of a file's hunks is well formed and carries the file's path |
| BotProperties.FilesAnnotationsWellFormed | internal/bot/bot.go:227-241 | every annotation is well formed and names a file of the diff that the repository does not ignore |
| BotProperties.IgnoreFailsOpen | internal/bot/bot.go:260-274 | a configuration that is not fetched, has no ignore list, or whose patterns do not compile ignores no file |
| BotProperties.MessageOneSlot | internal/bot/bot.go:247-248 | a body "before%safter" without other % gives before, the terms joined by ", ", then after |
| BotProperties.MessageWithoutSlot | internal/bot/bot.go:247-248 | a body without % is used as the message unchanged, with the extra-argument report cut off |
| BotProperties.CutBeforeFirst | internal/bot/bot.go:248 | when the separator occurs right after `x` and nowhere before, splitting keeps exactly `x` |
| BotProperties.ScenarioLineMatches | internal/bot/bot.go:236 | with terms master and slave, the line slave_ip = "1.2.3.4" matches exactly slave |
| BotProperties.ScenarioFlaggedLine | internal/bot/bot.go:227-241 | that line in config.py with no ignore list gives one annotation for that line, listing slave |
| BotProperties.ScenarioIgnoredFile | internal/bot/bot.go:186-231 | the same file under a matching ignore pattern gives no annotation and a success conclusion |
| BotProperties.ScenarioOnlyRemovedLines | internal/bot/bot.go:233-235 | a hunk that only removes lines has an empty new range and gives no annotation |
| BotProperties.ScenarioMessageWithSlot | internal/bot/bot.go:247-248 | the body "Found: %s" with matches master and slave gives "Found: master, slave" |
| BotProperties.ScenarioMessageWithoutSlot | internal/bot/bot.go:247-248 | the body "Found flagged terms" (no slot) gives "Found flagged terms" |

## Left out

- Network, webhook transport and signatures: the HTTP server, the GitHub client, installation
  tokens and `CreateClient` (and its fatal path) are not part of this model. An installation id
  maps to an `Api` through a function parameter.
- Posting the check run is modelled as the value posted. The POST's reply is only logged, and
  the program dereferences that reply even when it is nil; neither is modelled.
- `time.Now()` as the completion time of the check run is left out, as is all logging.
- The wiring in `bot.New`, `main.go` and the functional options of the server, client and
  configuration helper are left out because they only copy values.
- Bot.Modelled: every bot operation assumes that the term list contains only literal terms.
  A literal term is non-empty and has no regular-expression metacharacter. It also assumes
  that the annotation body uses only the `%s` and `%%` verbs. The program accepts any term
  list, compiles the joined pattern with RE2 and drops the compile error, and accepts any format.
- TermRegex.FindAll: leftmost-first matching is modelled for literal alternatives only.
  RE2 semantics for other patterns are not captured.
- Fmt.Sprintf: the model covers one string argument with `%s` and `%%` only. Other verbs,
  flags and widths are not modelled.
- The diff parser, the gitignore matcher and YAML decoding are parameters. Their own behaviour,
  including what the decoder does with malformed input, is not modelled. A decoding error is
  ignored by the program and so needs no model.
- ConfigUtil.JoinPath: `filepath.Join` is modelled as `d + "/" + n`, without path cleaning.
- ConfigUtil.Env: log.Fatal's process exit is the `Fatal` outcome. The formatting of the
  message by the test's mock (which prints `[ABC]`) is not modelled.
- Config.New: a `panic` is modelled as a `Failure` carrying the message.
- The configuration of a repository is fetched once for every file of a diff, and `GitHub.Api`'s
  replies are functions of the request. So every file of one pull request sees the same reply.
  A fetch that fails for one file only, where the program fails open for that file alone, is
  not represented.
- Go strings are byte strings. The model represents file contents (`string(data)` when reading
  secrets), diff line contents and terms as sequences of Unicode characters. Invalid UTF-8 is
  not represented, and `TrimSpace`'s treatment of it is not modelled.
- Bot.CreateAnnotations: the program's three nested loops are split into three methods
  (`CreateAnnotations`, `ScanHunks` and `ScanLines`), one loop each. The iteration order and
  the results are the same.

# autonimer: the two reporting scripts, modelled in Dafny

autonimer runs two scripts against a WhatsApp gateway (WAHA). Each one sends
every item once and keeps a marker file per item, so that a later run does
not send the item again.

- `nimer_scrap_docker.py` handles the daily text report. It looks at the
  three days before today, oldest first, and skips a day whose
  `enviado_<dd-mm-yyyy>.txt` marker exists. For every other day it:
  1. filters the Nimer dashboard by that date;
  2. reads the progress bars of the target production lines;
  3. formats a text message (lines sorted by id, each with a ✅/⚠️/❌ mark
     set by photo-percentage thresholds);
  4. sends the message;
  5. writes the marker only after the backend accepted the send.
- `send_whatsapp.py` handles the image reports. It waits for the gateway
  session to be ready. It then sends every `Relatorio_*.png` of the output
  directory in name order, skips the ones that already have a `<name>.sent`
  marker, and creates the marker after each accepted upload. Each image's
  caption carries the date taken from its file name. The script exits 1
  when any attempted upload failed.

Modules, one file each:

| file | module | what it holds |
|---|---|---|
| `base.dfy` | `Base` | `Option` |
| `strings.dfy` | `Strings` | the Python `str` operations the scripts use: `split`, `join`, `in`, `startswith`/`endswith`, `strip`, `replace`, and `<=` on strings |
| `sorting.dfy` | `Sorting` | `sorted(..., key=...)` as a stable insertion sort |
| `waha.dfy` | `Waha` | the environment configuration, what counts as an accepted send (HTTP 200/201), and the readiness gate `wait_for_session_ready` |
| `report.dfy` | `Report` | `formatar_mensagem_texto` |
| `dashboard.dfy` | `Dashboard` | `_extrair_valor_progresso` and the card loop of `extrair_dados_das_linhas` |
| `dates.dfy` | `Dates` | the `dd/mm/yyyy` and `dd-mm-yyyy` renderings of a day and the marker file name |
| `daily.dfy` | `DailyReport` | `main` of the daily report |
| `image_sender.dfy` | `ImageSender` | `main` and `enviar_imagem_whatsapp` of the image sender |

How the outside world is modelled:

- **State changed in place is a class.**
  - The daily report's marker directory is `DailyReport.MarkerStore`, which holds a `set<int>` of day numbers.
    The file `enviado_<dd-mm-yyyy>.txt` depends only on the day's date, so keying the store by day number
    assumes the calendar gives distinct days distinct dates, as `timedelta` arithmetic does.
    `Dates.MarkerNameInjective` gives the other half: distinct dates get distinct file names.
  - The image sender's output directory is `ImageSender.OutputDir`, which holds the `seq<string>` of file names.
- **Each loop is a method proved against a specification function:**
  - `WaitForSessionReady` against `AwaitReady`;
  - `ExtractRows` against `ExtractRecords`;
  - `FormatMessage` against `Format`;
  - `ProcessPeriods` against `Run`;
  - `SendQueue` against `SendAll`.
- **External effects are parameters:**
  - the browser's page for each day;
  - the backend's answer to each request;
  - whether a marker write succeeds;
  - `float`, `{:.1f}` and the calendar;
  - the duration of each status poll.
- **Days are integers.** The calendar maps a day number to a date.

In `nimer_scrap_docker.py` a single `try` wraps the whole day loop (lines
189-220), so an exception escapes and the remaining days are abandoned when:

- `float` rejects a percentage in the formatter;
- `find_elements` raises;
- the marker write fails.

Failures the stages catch themselves do not stop the loop. These include a
filter timeout, no data, and a rejected send. `DailyReport.RunIsolation`
covers those. `DailyReport.OldestDayRaises` shows the abort.

## Model

| member | source | states |
|---|---|---|
| Strings.Split | nimer_scrap_docker.py:145 | `str.split(sep)` yields at least one piece, and no piece contains the separator |
| Strings.JoinSplit | nimer_scrap_docker.py:72 | joining the pieces of a split with the separator gives back the original text |
| Strings.SplitAtSeparator | nimer_scrap_docker.py:148 | a text that contains the separator splits into at least two pieces |
| Strings.SplitLast | send_whatsapp.py:56 | the last `_`-piece of `a + "_" + b` is `b` when `b` has no `_` |
| Strings.ContainsAt | nimer_scrap_docker.py:147 | `sub in s` holds exactly when `sub` occurs at some index of `s` |
| Strings.Strip | nimer_scrap_docker.py:148 | `strip()` gives the middle of the text, with only whitespace cut from either end and no whitespace left at either end |
| Strings.RemoveAllTrailing | send_whatsapp.py:56 | `replace('.png', '')` on `d + ".png"` gives `d` when `d` has no `.` |
| Strings.ReplaceChar | send_whatsapp.py:56 | `replace('-', '/')` changes exactly the `-` characters and keeps the length |
| Strings.LeTotal | send_whatsapp.py:152 | Python's string order is total |
| Strings.LeTransitive | send_whatsapp.py:152 | Python's string order is transitive |
| Strings.LeAntisymmetric | send_whatsapp.py:152 | Python's string order is antisymmetric |
| Sorting.SortBy | nimer_scrap_docker.py:55 | `sorted(dados, key=linha)` is a permutation of its input and is ordered by the key |
| Waha.Accepted | nimer_scrap_docker.py:76-94 | `enviar_texto_whatsapp` returns True exactly when group id, API key and endpoint are set and non-empty and the POST answered 200 or 201; a connection error or any other status returns False |
| Waha.WaitForSessionReady | nimer_scrap_docker.py:33-50 | the polling loop returns what `AwaitReady` prescribes |
| Waha.GateOpensAtFirstReady | send_whatsapp.py:23-31 | when the gate opens, the last poll was a 200 with status CONNECTED or WORKING and started before the timeout, and every earlier poll was not ready |
| Waha.GateClosesOnTimeout | send_whatsapp.py:23-39 | when the gate stays closed, no poll was ready and the time budget is spent |
| Waha.GateOpensIfReadyInTime | send_whatsapp.py:23-31 | a ready answer to any poll that starts inside the budget opens the gate |
| Waha.GateGivesUpOnSilentSession | send_whatsapp.py:23-39 | a session that is never ready, with instant answers, is polled ceil(timeout/10) times and the gate returns False |
| Waha.PollFromFindsReady | send_whatsapp.py:23-31 | polling from any earlier poll reaches a ready poll that starts in time |
| Waha.ElapsedMonotone | send_whatsapp.py:23 | time elapsed never decreases from one poll to the next |
| Report.Classify | nimer_scrap_docker.py:64 | the mark is ✅ exactly when fotos > 90, ⚠️ exactly when 70 < fotos ≤ 90, and ❌ exactly when fotos ≤ 70 |
| Report.ClassifyBoundaries | nimer_scrap_docker.py:64 | `Classify` maps 90.1 to ✅, maps 90.0 and 70.1 to ⚠️, and maps 70.0 and 0.0 to ❌. |
| Report.FormatMessage | nimer_scrap_docker.py:53-74 | the append loop returns what `Format` prescribes |
| Report.BlocksDefined | nimer_scrap_docker.py:58-69 | the blocks exist exactly when every record's two percentages are accepted by `float` |
| Report.BlocksShape | nimer_scrap_docker.py:58-69 | existing blocks have 4 lines per record; the k-th block opens with the k-th record's mark and id and ends with an empty line |
| Report.FormatOutcome | nimer_scrap_docker.py:60-71 | the formatter returns None exactly when there are no records, and raises ValueError exactly when some percentage is not a number |
| Report.ListedInOrder | nimer_scrap_docker.py:55-58 | the records are listed as a permutation of the input, in ascending line-id order |
| Report.FormatLayout | nimer_scrap_docker.py:56-69 | there are 2 + 4·n lines; the header comes first, and the k-th block opens with the k-th sorted record's mark and id and ends with an empty line |
| Dashboard.TaggedPartHasColon | nimer_scrap_docker.py:148 | a part containing `--value:` has a second `:`-piece, so the index 1 never fails |
| Dashboard.FirstValueSpec | nimer_scrap_docker.py:146-149 | the scan returns the value of the first part containing the tag, or "0" when none does |
| Dashboard.ProgressValueSpec | nimer_scrap_docker.py:143-151 | the progress value is the stripped text between the first and second `:` of the first `;`-part containing `--value:`, and "0" when no part contains it |
| Dashboard.ExtractRecords | nimer_scrap_docker.py:159-171 | there are no more records than cards, and every record's line is in `LINHAS_ALVO` |
| Dashboard.ExtractRows | nimer_scrap_docker.py:154-179 | the card loop returns what `ExtractRecords` prescribes |
| Dashboard.ExtractConcat | nimer_scrap_docker.py:159-171 | extraction works card by card in card order: the records of `a + b` are those of `a` followed by those of `b` |
| Dashboard.ExtractMembers | nimer_scrap_docker.py:162-171 | a record is extracted exactly when some readable target card produced it; fewer than two bars gives "0"/"0" |
| Dashboard.ExtractEmpty | nimer_scrap_docker.py:159-171 | the list is empty exactly when no card is a readable target card |
| Dates.Render | nimer_scrap_docker.py:197-198 | `strftime` with `%d?%m?%Y` is 10 characters long, with the separator at positions 2 and 5 |
| Dates.FileTextFromFilterText | nimer_scrap_docker.py:197-198 | the file-name date is the filter date with `/` replaced by `-` |
| Dates.MarkerNameInjective | nimer_scrap_docker.py:199 | distinct dates have distinct marker file names |
| Dates.Pad4Injective | nimer_scrap_docker.py:197 | the four-digit year rendering is injective |
| DailyReport.Reverse | nimer_scrap_docker.py:196 | `reversed` puts element k at position n-1-k |
| DailyReport.Candidates | nimer_scrap_docker.py:194-196 | the days visited are exactly today-3, today-2 and today-1, in increasing order, and today is never one of them |
| DailyReport.MarkerStore.Write | nimer_scrap_docker.py:212 | the marker is added exactly when the write succeeds |
| DailyReport.ProcessDay | nimer_scrap_docker.py:205-217 | one unmarked day runs filter, extract, format and send as `Attempt` prescribes, and marks the day exactly when it was Delivered |
| DailyReport.VisitDay | nimer_scrap_docker.py:200-217 | a marked day is Skipped; any other day runs its stages |
| DailyReport.ProcessPeriods | nimer_scrap_docker.py:196-220 | the loop leaves the markers, the visit log and the abort flag that `Run` prescribes |
| DailyReport.RunDailyReport | nimer_scrap_docker.py:182-223 | `main` gives the exit status and state that `DailyMain` prescribes |
| DailyReport.StagesNeverSkip | nimer_scrap_docker.py:201-204 | only an existing marker skips a day |
| DailyReport.AttemptDelivered | nimer_scrap_docker.py:205-213 | a day is delivered exactly when the filter succeeded, data is non-empty, a message was formatted, the backend accepted (200/201 with configuration present) and the marker write succeeded |
| DailyReport.RunVisitsInOrder | nimer_scrap_docker.py:196-220 | days are visited in order; the run stops exactly after a visit that raised, and without an abort every day is visited |
| DailyReport.RunMarkers | nimer_scrap_docker.py:209-213 | markers are only added, and exactly for the days whose visit ended Delivered |
| DailyReport.RunSkipsMarked | nimer_scrap_docker.py:201-203 | a day whose marker existed is visited as Skipped: it is not filtered, extracted or sent |
| DailyReport.RunCovers | nimer_scrap_docker.py:196-218 | without an abort, every day ends marked or was visited with its own stage outcome |
| DailyReport.RunIsolation | nimer_scrap_docker.py:196-218 | without an abort, a day ends marked exactly when it was marked before or its own stages deliver it |
| DailyReport.RunDeliveredIsAttempt | nimer_scrap_docker.py:205-213 | a Delivered visit is what that day's stages produced |
| DailyReport.RunQuiet | nimer_scrap_docker.py:201-217 | when every day is marked or stops before sending, the run sends nothing, writes no marker and does not abort |
| DailyReport.RunIdempotent | nimer_scrap_docker.py:196-217 | after a run with no abort and no failed send, a second run over the same days sends nothing and changes no marker |
| DailyReport.MiddleDayFails | nimer_scrap_docker.py:196-217 | if the middle day's filter fails and the other two deliver, the outer two days are marked and the middle one is not |
| DailyReport.OldestDayRaises | nimer_scrap_docker.py:189-220 | an exception on the oldest day abandons the two later days and writes no marker |
| DailyReport.DailyExitStatus | nimer_scrap_docker.py:183-187 | exit 1 exactly when the configuration is missing or the gate failed, and nothing is visited then; failed days never change the exit status |
| ImageSender.Reports | send_whatsapp.py:145 | the candidates are exactly the listed names that start with `Relatorio_` and end with `.png` |
| ImageSender.QueueSpec | send_whatsapp.py:145-152 | the queue holds exactly the report names, each as often as it is listed, in ascending order |
| ImageSender.MarkerIsNotReport | send_whatsapp.py:145-165 | a `.sent` marker is never itself a report, so markers never enter the queue |
| ImageSender.MarkerInjective | send_whatsapp.py:154 | two names share a marker exactly when they are equal |
| ImageSender.DatePartOf | send_whatsapp.py:56 | the date part of `a + sep + d + ext` is `d` with `-` shown as `/`, when neither `d` nor `ext` holds the separator and `d` cannot start `ext` |
| ImageSender.CaptionOfReport | send_whatsapp.py:56-57 | for `Relatorio_<d>.png` (with `d` free of `_` and `.`) the caption is `base + " (" + d + ")"` with `-` shown as `/`, where `base` is the `CAPTION` setting; for example `Relatorio_10-05-2025.png` gives `(10/05/2025)` |
| ImageSender.ImageSent | send_whatsapp.py:44-86 | an upload succeeds only when configured, with the file opened, and an answer of 200 or 201; missing configuration, a missing file, another status or a connection error all fail |
| ImageSender.SendImage | send_whatsapp.py:42-86 | `enviar_imagem_whatsapp` returns `ImageSent`; it builds the caption only after the configuration check passed |
| ImageSender.OutputDir.Create | send_whatsapp.py:165-166 | creating the marker appends its name to the directory |
| ImageSender.SendQueue | send_whatsapp.py:151-171 | the send loop leaves the directory, the attempted names and `sucesso_total` that `SendAll` prescribes |
| ImageSender.SendReports | send_whatsapp.py:135-176 | `main` gives the exit status, attempted names and directory that `SenderMain` prescribes |
| ImageSender.SendSkipsMarked | send_whatsapp.py:154-156 | only queued names whose marker was absent are attempted |
| ImageSender.SendMarkers | send_whatsapp.py:161-170 | files are only added; a marker exists afterwards exactly when it existed before or its report was attempted and accepted; every new file is such a marker |
| ImageSender.SendAllOk | send_whatsapp.py:151-170 | `sucesso_total` holds exactly when every attempted send succeeded |
| ImageSender.SendCovers | send_whatsapp.py:152-166 | every queued name ends up either already marked or attempted |
| ImageSender.SendQuiet | send_whatsapp.py:152-156 | with every queued name marked, nothing is sent and nothing changes |
| ImageSender.SendInOrder | send_whatsapp.py:152 | sending a sorted queue attempts the names in ascending order |
| ImageSender.SenderExit | send_whatsapp.py:136-176 | the exit status is 1 exactly when the gate failed or some attempted send failed; skipped files and an empty queue finish with 0 |
| ImageSender.SenderIdempotent | send_whatsapp.py:152-167 | after a run that exits 0, a second run over the directory it left sends nothing, whatever the backend would answer |
| ImageSender.SenderInOrder | send_whatsapp.py:145-156 | the attempted names are in ascending order, and each is an unmarked report of the directory |

## Left out

- Browser automation (`iniciar_driver`, `fazer_login`, and the DOM steps of `filtrar_por_data`) is an outside interface. The model uses a per-day `Page`: not filtered, loaded with cards, or a fault that raises. It also uses one `browserUp` flag for driver start-up and login; when that is false, the raised exception is caught and no day is visited.
- A card that raises while read is one `Faulty` card. Both the missing-`h2` case and the generic exception skip the card, so they are not told apart.
- HTTP payloads, headers and the caption's delivery are not modelled. Only the status code, or a connection error, reaches the model. `SendImage` returns the caption it would send, but the backend's answer does not depend on it.
- A status reply whose body is not JSON counts as "not ready". The model does not tell the error that `response.json()` raises apart from a connection error.
- Real time is replaced by given poll durations plus the fixed 10-second pause. The 3-second pauses between days and between images have no effect on any outcome and are left out.
- `float` and `{:.1f}` are given functions (`parse`, `render`). NaN and infinity are not modelled.
- `timedelta` arithmetic is a given calendar from day numbers to dates. Only years 1000-9999 are rendered, which covers what `%Y` produces for today's dates.
- A marker write that fails in the daily report ends the run (`WriteFailed`). A failed `.sent` creation in the image sender, and any other `OSError`, is not modelled.
- The atomicity of marker files, and concurrent runs, are not modelled.
- The daily report keys its markers by day number, which stands for the marker file only while the calendar is injective on the days visited; the calendar is a parameter and that property is assumed, not proved.
- The `CAPTION` setting and its default text come from the environment; the caption base is a parameter `base`.
- Creating the output directory (`os.makedirs`) is not modelled. A missing output directory in the image sender lists like an empty one, because both reach the "nothing to send" branch.
- The `try`/`except` around the caption in `enviar_imagem_whatsapp` is not modelled. `split` always yields a last piece, so that `except` cannot run.
- The unreachable second body after the returns of `enviar_imagem_whatsapp` is not modelled.
- `wait_for_session_ready` appears in both scripts with the same behaviour and is modelled once.
- Sorting.SortBy: the contract states a sorted permutation, not stability. The definition keeps equal keys in input order, as `sorted` does, but this is not proved. Equal keys only occur when a line id repeats on the page, and such duplicates are kept, as in the source.
- Environment variables are the fields of `Waha.Config`. `sys.exit` is the exit status returned by `DailyMain` and `SenderMain`.

# Webhook receiver core, modelled in Dafny

This project models the core of a small GitHub webhook receiver (`app.py`). It covers three parts:

- **Timestamp formatter** (`format_timestamp`). It parses an ISO-8601 text. Every `Z` is first
  replaced by `+00:00`. The result is rendered as `"<day><suffix> <Month> <Year> - <hh>:<mm> <AM|PM> UTC"`.
  On any failure the input comes back unchanged.
- **Normalizer** (the classification half of `process_webhook_event`). It recognises three kinds of
  payload: a push, an opened pull request, and a closed-and-merged pull request. For each it builds
  the record the dashboard shows. Any other payload yields no record, and so does a payload whose
  reading raises an exception.
- **In-memory store** (`events_storage`). Records are appended and numbered `len + 1`. Only the
  newest 50 are kept. The listing is newest first, and the store can be cleared.

Modules:

- `PyValues` (`pyvalues.dfy`): the JSON values a payload is made of, and the Python operations the
  receiver applies to them:
  - `dict.get`, which raises on a non-dict;
  - truthiness;
  - `str()` as an f-string uses it;
  - `startswith`;
  - `str.replace`.
- `Timestamp` (`timestamp.dfy`): the formatter.
- `Normalizer` (`normalizer.dfy`): the classifier, together with a payload-level statement of
  which payloads it accepts and what record it builds.
- `Store` (`store.dfy`): the class `EventStore`, whose field `events` is updated in place by its
  methods, plus the sequence functions that specify them.

Surroundings of the code become parameters:

- The clock (`datetime.utcnow()`) is `Env.now`.
- The C library's `strftime` treatment of the day token is `Env.libc` (type `Libc`). The format
  string contains `%{day}{suffix}`, for example `%1st`, and glibc reads that as a directive of its
  own.
- Whether the optional MongoDB backend took a record is the `Primary` argument of
  `ProcessWebhookEvent`.

The comment at app.py:41 gives the intended output as `1st April 2021 - 9:30 PM UTC`. The
code differs from that comment in two ways, and the model follows the code:

- `%I` zero-pads the hour, so the 1st of April at 21:30 prints `09:30 PM`, not `9:30 PM`
  (`Timestamp.FormatsFirstOfApril`).
- The day token is not `1st` literally but whatever the C library prints for `%1st`. The model
  leaves that part to `libc`.

Other behaviours of the code that a reader might not expect, all modelled as written:

- Ids repeat. Once the store is full, every new record gets id 51 (`Store.IdsRepeatWhenFull`).
  What holds is that ids never decrease along the store, and that below the cap the record at
  position `i` has id `i + 1` (`Store.IdsWellFormed`).
- A push ref that starts with `refs/heads/` loses every occurrence of `refs/heads/`, not only the
  leading one (`Normalizer.EveryOccurrenceRemoved`).
- The canned push payload of the test endpoint has no `commits` key. It is therefore not
  recognised as a push and yields no record (`Normalizer.CannedPushIgnored`).
- A timestamp carrying another offset is not converted to UTC. Its own wall-clock time is
  printed, labelled `UTC` (`Timestamp.OffsetIsNotConverted`).

## Model

| member | source | states |
|---|---|---|
| PyValues.Get | app.py:57-59 | `d.get(key, default)` raises exactly when `d` is not a dict; otherwise it gives the stored value when the key is present and the default when it is not |
| PyValues.Lookup | app.py:57-59 | a key is found exactly when some member carries it, and what is found is stored under that key |
| PyValues.PyStr | app.py:71 | an f-string substitutes a `str` as itself and `None` as `None` |
| PyValues.NatToDecimal | app.py:48 | `str(n)` writes a non-empty run of decimal digits that reads back as `n`, with no leading zero: only `0` itself starts with `0` |
| PyValues.HasKey | app.py:62 | `key in d`, as tested at app.py:62, 84 and 107: true exactly for a dict holding a member under `key`. Those lines only ever test a dict, because `payload.get` at app.py:57 raises first on anything else. Python's `in` on a list or a `str` tests membership or a substring, which the model does not cover: it gives false for every value that is not a dict (no contract of its own; `PyValues.Lookup` states when a member is found) |
| PyValues.StartsWith | app.py:67 | `ref.startswith(prefix)`: the prefix is no longer than the text and is its first characters (no contract of its own; `Normalizer.BranchOfHeadsRef` uses it) |
| PyValues.Truthy | app.py:62 | Python truthiness, which `payload.get('ref')` at app.py:62 and `merged` at app.py:110 are tested by: `None`, `False`, `0`, the empty text and empty containers are false (no contract; the definition is the table) |
| PyValues.ReplaceAll | app.py:40 | `s.replace(pat, rep)`, scanning left to right without overlaps (no contract of its own; `ReplaceAbsent` and `ReplaceCharAtEnd` state its behaviour, and `Normalizer.BranchOfHeadsRef` and `Normalizer.EveryOccurrenceRemoved` state it on the push ref) |
| PyValues.ReplaceAbsent | app.py:40 | `replace` leaves a text in which the pattern never occurs unchanged |
| PyValues.ReplaceCharAtEnd | app.py:40 | in a text whose only `Z` is the last character, `replace('Z', '+00:00')` swaps that `Z` for `+00:00` |
| Timestamp.DaysInMonth | app.py:40 | every month has between 28 and 31 days |
| Timestamp.ParseIsoFormat | app.py:40 | every time accepted by the parse lies within `datetime`'s ranges, and its offset lies strictly within a day |
| Timestamp.Valid | app.py:40 | the ranges `fromisoformat` enforces: year 1-9999, a real calendar day, clock fields in range, an offset strictly within a day (no contract of its own; `Timestamp.ParseIsoFormat` states that every parsed time meets it) |
| Timestamp.Pad | app.py:48 | the zero-padded fields of `%I` and `%M`, and of `isoformat()` at app.py:68 (no contract of its own; `Timestamp.PadRoundTrip` states it) |
| Timestamp.PadRoundTrip | app.py:48 | a number that fits is written with exactly `width` zero-padded digits, and those digits read back as the number |
| Timestamp.IsoFormatNaive | app.py:68 | `utcnow().isoformat()` (no contract of its own; `IsoRoundTrip` states that it parses back) |
| Timestamp.IsoRoundTrip | app.py:68 | what `utcnow().isoformat()` writes, with `+00:00` for its `Z`, parses back to the same time at offset zero |
| Timestamp.ParseOfLayout | app.py:40 | a text in the `isoformat()` layout parses to the time its digit fields spell |
| Timestamp.OrdinalSuffix | app.py:42-46 | the suffix has two letters; among calendar days, `st` is for 1, 21 and 31, `nd` for 2 and 22, `rd` for 3 and 23, and `th` for every other day (both directions) |
| Timestamp.Hour12 | app.py:48 | `%I` is between 1 and 12 and agrees with the hour modulo 12 |
| Timestamp.Meridiem | app.py:48 | `%p` is `AM` exactly for hours before noon |
| Timestamp.ClockRoundTrip | app.py:48 | `%I` together with `%p` determines the hour |
| Timestamp.MonthNamesDistinct | app.py:48 | `%B` writes one of twelve names, a different one for each month |
| Timestamp.DayDirective | app.py:48 | the day token `%{day}{suffix}` is `%`, then digits that read back as the day with no leading zero, then the day's two-letter suffix |
| Timestamp.ClockText | app.py:48 | ` - %I:%M %p UTC` takes fifteen characters: two digits that read back as the 12-hour hour, `:`, two digits that read back as the minute, then ` AM UTC` or ` PM UTC` |
| Timestamp.AfterDay | app.py:48 | ` %B %Y` followed by the clock: the month's name, then digits that read back as the year with no leading zero, then `ClockText` |
| Timestamp.Render | app.py:48 | `strftime` of the whole format: what the C library prints for `DayDirective`, then `AfterDay` (no contract of its own; those two carry it) |
| Timestamp.FormatTimestamp | app.py:36-52 | a text that does not parse after the `Z` replacement comes back unchanged; one that parses is rendered and ends in ` UTC` |
| Timestamp.FormatValue | app.py:38-52 | a non-`str` value, which has no `replace`, comes back unchanged; a `str` is formatted |
| Timestamp.ClockTimestampFormats | app.py:68 | the default timestamp `utcnow().isoformat() + 'Z'` always formats, and prints the clock's own time |
| Timestamp.FormatOfParsed | app.py:40-49 | a text without `Z` that parses is rendered from the time it parses to |
| Timestamp.FormatsFirstOfApril | app.py:41-48 | `2021-04-01T21:30:00Z` gives the `%1st` token, then ` April 2021 - 09:30 PM UTC` |
| Timestamp.FormatsEleventhAtMidnight | app.py:43-48 | `2021-04-11T00:05:00Z` gives the `%11th` token (the 10-20 exception), then ` April 2021 - 12:05 AM UTC` |
| Timestamp.KeepsNonTimestamp | app.py:50-52 | `not-a-date` comes back unchanged |
| Timestamp.OffsetIsNotConverted | app.py:40-48 | a `+05:30` time prints its own wall-clock hour, labelled `UTC` |
| Normalizer.DefaultTimestamp | app.py:68 | the fallback `utcnow().isoformat() + 'Z'` (no contract of its own; `Timestamp.ClockTimestampFormats` states that it always formats) |
| Normalizer.TypeName | app.py:75 | a record's type is one of `push`, `pull_request` and `merge` |
| Normalizer.Classify | app.py:57-134 | the `try` body up to storage: the three reads at app.py:57-59 and the branch choice (no contract of its own; `NormalizeSpec` states it) |
| Normalizer.PushEvent | app.py:62-82 | the push branch (no contract of its own; `PushEventSpec` states it) |
| Normalizer.PullRequestEvent | app.py:84-105 | the opened branch (no contract of its own; `PullRequestEventSpec` states it) |
| Normalizer.MergeEvent | app.py:107-131 | the closed branch (no contract of its own; `MergeEventSpec` states it) |
| Normalizer.Normalize | app.py:54-134 | `process_webhook_event` without storage: an exception yields no record (no contract of its own; `NormalizeSpec` states it, and `Store.EventStore.ProcessWebhookEvent` adds storage) |
| Normalizer.NormalizeSpec | app.py:56-134 | a payload yields a record exactly when it is accepted: a dict whose `repository` is a dict or missing, matching the first of push, opened and closed-and-merged whose containers can be read. The record is the one of that first shape: its id is the given one, its fields are read from the payload with their defaults, its message is the template of its kind filled with the record's own fields, and its timestamp is its raw timestamp formatted |
| Normalizer.PushEventSpec | app.py:62-82 | given push shape, the push branch never yields "no record"; it succeeds exactly when `pusher` and `head_commit` are dicts or missing and `ref` is a `str`, and then gives the push record of the payload |
| Normalizer.PullRequestEventSpec | app.py:84-105 | the opened branch never yields "no record"; it succeeds exactly when `pull_request` and its `user`, `head` and `base` are dicts or missing, and then gives the pull-request record of the payload |
| Normalizer.MergeEventSpec | app.py:107-131 | the closed branch yields a record exactly when `pull_request` is a dict or missing, `merged` is truthy, and `merged_by`, `head` and `base` are dicts or missing; the record is the merge record of the payload |
| Normalizer.PushWins | app.py:62-84 | a payload of push shape yields only a push record, whatever its `action` says |
| Normalizer.ClosedUnmergedIgnored | app.py:107-131 | without push shape, a closed pull request that was not merged yields no record |
| Normalizer.OtherActionIgnored | app.py:132-134 | without push shape, an action other than `opened` and `closed` yields no record |
| Normalizer.Branch | app.py:66-67 | `ref.startswith(...)` raises exactly when the ref is not a `str` |
| Normalizer.BranchName | app.py:67 | a ref that does not start with `refs/heads/` is the branch verbatim; for one that does, `BranchOfHeadsRef` and `EveryOccurrenceRemoved` state the result |
| Normalizer.BranchOfHeadsRef | app.py:67 | the ref `refs/heads/<name>` gives `<name>` when the name holds no further `refs/heads/` |
| Normalizer.EveryOccurrenceRemoved | app.py:67 | `refs/heads/a/refs/heads/b` gives `a/b`: every occurrence goes, not just the prefix |
| Normalizer.CannedPushIgnored | app.py:274-285 | the canned push payload, which has no `commits`, yields no record |
| Normalizer.CannedPullRequestRecorded | app.py:286-304 | the canned pull request yields the record of `TestUser` from `feature-branch` to `main` in `test-repo`, its time rendered from the clock |
| Normalizer.CannedMergeRecorded | app.py:305-324 | the canned merge yields the merge record of `TestUser` from `feature-branch` to `main` in `test-repo`, its time rendered from the clock |
| Store.LastN | app.py:163-165 | the last `n` elements of a sequence, in order |
| Store.Retained | app.py:160-165 | after `append` and one `pop(0)` past 50, the store grows by one until it reaches 50; the new record comes last, after the newest of the old records |
| Store.RetainedIsLastN | app.py:160-165 | appending to a store within the cap and trimming once leaves the newest 50 records, in order |
| Store.ReceiveKeepsNewest | app.py:160-165 | after any sequence of appends to an empty store, it holds exactly the newest 50 records received, oldest first |
| Store.RetainedKeepsIds | app.py:74 | appending the record numbered `len + 1` keeps the id invariant: size within the cap, ids equal positions + 1 below the cap, every id between position + 1 and 51, ids non-decreasing |
| Store.IdsRepeatWhenFull | app.py:74 | once the store is full it stays full, and two records received in a row both get id 51 |
| Store.Reversed | app.py:231 | `list(reversed(s))` has the same length, with element `i` taken from position `len - 1 - i` |
| Store.NewestListedFirst | app.py:230-233 | the record just stored is listed first |
| Store.EventStore.constructor | app.py:34 | the store starts empty |
| Store.EventStore.Append | app.py:160-165 | `append` then one `pop(0)` past 50 leaves the retained sequence, and keeps the id invariant |
| Store.EventStore.ProcessWebhookEvent | app.py:54-171 | the result is the normalizer's record, numbered `len + 1`; the store gains it (with trimming) unless there was no record or the primary database took it, and otherwise is unchanged |
| Store.EventStore.List | app.py:229-233 | the listing holds every stored record, newest first, with its count |
| Store.EventStore.Clear | app.py:254-256 | it reports how many records there were and leaves the store empty, so numbering starts again at 1 |

## Left out

- MongoDB (app.py:16-31, 137-153 and the MongoDB branches of the listing and clear endpoints) is
  left out: its records, its cap of 100 and its `created_at`/`_id` metadata. It is external
  storage. Only its effect on the in-memory store is modelled, as the `Primary` argument.
- The Flask routes, their HTTP status codes and `jsonify`, `request.json`, logging and CORS are
  left out. They are I/O around the core. The `if not payload` check of the webhook route lies
  outside `process_webhook_event`.
- The test endpoint's choice of payload and its responses are left out. Its three canned payloads
  are modelled.
- What glibc's `strftime` prints for the `%{day}{suffix}` token is left to the `libc` parameter.
  That includes its `%s`-like readings of that token.
- Timestamp.AfterDay: writes `%B`, `%Y`, `%I`, `%M` and `%p` itself, not through `libc`. It
  fixes the C locale's English month names and `AM`/`PM`, and writes `%Y` without padding, as
  glibc does. Other locales are not modelled. Neither are Python versions or C libraries that pad
  `%Y` for years before 1000 to four digits.
- Timestamp.ParseIsoFormat: accepts only `YYYY-MM-DD?HH:MM:SS[.fff|.ffffff][±HH:MM]`, which is
  narrower than `datetime.fromisoformat`. Date-only texts, hour-only or minute-only times, offsets
  with seconds, and the wider grammar of newer Python versions are read as failures and come back
  unchanged.
- JSON numbers are integers only; floats are left out.
- PyValues.Lookup: when a key is repeated in an object, the model takes the first member. Python's
  `json` parser keeps the last value for a repeated key, so payloads with repeated keys are not
  modelled faithfully.
- PyValues.PyStr: gives `repr` for non-`str` values, but does not escape non-ASCII non-printable
  characters the way Python's `repr` does.
- Concurrent requests on the shared store are left out. The model is sequential.
- The dashboard script (`static/`) is left out. It is presentation code.

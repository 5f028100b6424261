# File-drop relay bot, modelled in Dafny

The program is a personal "file drop". A Telegram bot lets an allow-listed
admin upload one file. A Flask endpoint `GET /` then serves that file to
anyone, proxying it from Telegram's file storage. This project models the
deterministic logic of `app.py` and proves properties of it:

- **Allow-list** (`Admins`): `ADMINS` is parsed from the comma-separated
  `ADMIN_IDS` variable, blank segments dropped, defaulting to `53962232`.
  `is_admin` is membership in that list.
- **JSON files** (`Store`, `Domain`): `files.json` and `domain.json` are
  values of `JsonFile<T>`, either `Unreadable` (missing or corrupt) or
  `Parsed(doc)`. `load_json` falls back to its default on `Unreadable`.
  `save_current_file_meta` replaces the whole store with one `"current"`
  record. `set_domain` replaces `domain.json`.
- **Base URL** (`Domain`): `get_domain` tries the saved domain, then
  `RENDER_EXTERNAL_URL`, then `DOMAIN`, then `http://localhost:<PORT>`.
  The environment is a parameter. `/setdomain` normalises its argument:
  it adds `https://` when no scheme is present, and `set_domain` strips
  trailing `/`.
- **Conversation** (`Conversation`, `RelayBot`): the aiogram dispatcher
  tries the handlers in registration order. A sender is either `Idle` or
  `WaitingForFile`. `Conversation` gives each handler and the dispatcher
  as a function of one message (`Step`) and of a sequence of messages
  (`Run`). `RelayBot.Relay` is the running bot. It is a class whose fields
  are the per-sender state map and the two JSON files, and its handler
  methods update them in place. Each method is proved against the
  corresponding function.
- **Download** (`Gateway`): `root_download` chooses between the blank
  page, 502, 500 and a streamed attachment. The two Telegram requests are
  inputs, given as functions from the request parameter to an abstract
  reply. The result records which requests were made.

Python built-ins are modelled on `seq<char>` in `PyStr`: `strip()`,
`rstrip("/")`, `split(",")`, `split(maxsplit=1)` and `int()`.

## Behaviour of `app.py` worth noting

- There is one file slot. The conversation has a single state,
  `waiting_for_file`, and every upload replaces the `"current"` record.
  When there is no record, `GET /` answers 200 with an empty `text/html`
  page.
- The streamed download forwards the upstream `Content-Type` and sets
  `Content-Disposition`. It sets no other header.
- When a request to Telegram raises, the exception escapes
  `root_download`, and Flask answers 500. An error status or a missing
  `result.file_path` gives 502. The answer is 200 only when both requests
  answered with an OK status (`Gateway.ServerErrorIff`,
  `Gateway.BadGatewayIff`).
- `/setdomain https://` stores `https:`. Trailing `/` are stripped after
  the scheme is added, so the stripping can eat into the scheme itself.
  The stored domain keeps its full `http://` or `https://` prefix only
  when something other than `/` follows the scheme
  (`Domain.StoredSchemeIff`, `Domain.HostlessDomainLosesScheme`). It
  always starts with `http:` or `https:`, and `get_domain` returns it
  unchanged.
- No sender outside `ADMINS` can ever be in `waiting_for_file`
  (`Conversation.RunKeepsWaitingAdmins`). So the non-admin branch of
  `handle_file` cannot be reached in a running bot. It is still modelled,
  and it changes nothing (`Conversation.FileByStranger`).
  `RelayBot.Relay.HandleFile` states the same for the running bot: while
  its invariant holds, the sender is an admin and never gets the
  rejection.

## Model

| member | source | states |
|---|---|---|
| `PyStr.Strip` | app.py:19 | `strip()` is the input with a leading and a trailing all-whitespace run removed; it is empty exactly for all-whitespace input, and otherwise neither starts nor ends with whitespace |
| `PyStr.RStripChar` | app.py:71 | `rstrip("/")` returns a prefix that does not end with `/`, and everything it removed was `/` |
| `PyStr.Split` | app.py:19 | `split(",")` gives one piece more than there are commas; no piece contains a comma; joining the pieces with commas gives back the input |
| `PyStr.SplitMaxOne` | app.py:107 | `split(maxsplit=1)` skips leading whitespace; the first part is the next maximal run of non-whitespace; the second part, if any, is the rest of the input after the following whitespace gap; there are no parts exactly for all-whitespace text |
| `PyStr.SplitMaxOneCommand` | app.py:107 | a command word, a whitespace gap and an argument split back into `[word, argument]` |
| `PyStr.SplitMaxOneWord` | app.py:77 | a single word such as `/start` splits into itself, so it is read as the command |
| `PyStr.ParseInt` | app.py:19 | `int()` of a blank string fails |
| `PyStr.ParseShowRoundTrip` | app.py:19 | `int(str(n)) == n` for every integer `n` |
| `Admins.NonBlank` | app.py:19 | keeps exactly the segments that are non-blank after `strip()`, and nothing else |
| `Admins.ParseAll` | app.py:19 | on success, one id per kept segment, each equal to `int()` of its segment; failure happens only when some segment is not an integer |
| `Admins.ParseAdmins` | app.py:19 | every id in `ADMINS` is `int()` of a non-blank segment of the list; the start-up fails iff some non-blank segment is not an integer |
| `Admins.AdminsFromEnv` | app.py:19 | `ADMINS` is parsed from `ADMIN_IDS` when it is set, and is `[53962232]` when it is not |
| `Admins.IsAdmin` | app.py:73-74 | `is_admin(u)` holds iff some position of `ADMINS` holds `u` |
| `Admins.AdminIff` | app.py:73-74 | `is_admin(u)` holds iff some non-blank segment of `ADMIN_IDS` parses to `u` |
| `Admins.BlankSegmentDropped` | app.py:19 | a blank segment between commas changes nothing: `"1, ,2"` names the same admins as `"1,2"` |
| `Admins.DefaultAdmins` | app.py:19 | the built-in list `"53962232"` parses to exactly `[53962232]` |
| `Store.LoadJson` | app.py:35-40 | a missing or corrupt file reads as the default; a parsed one as its content |
| `Store.GetCurrentFileMeta` | app.py:46-49 | the `"current"` record is present iff the file parsed and has that key; an unreadable file has none |
| `Store.SaveCurrentFileMeta` | app.py:51-52 | the new store has the single key `"current"`, and reading it back gives `{file_id, file_name}` |
| `Store.FileNameOr` | app.py:93 | `name or "file"` is never empty; it is the name when one is given and `"file"` otherwise |
| `Domain.SavedDomain` | app.py:56 | the saved domain is present iff `domain.json` parsed and has a `"domain"` key, and it is that key's value |
| `Domain.GetDomain` | app.py:54-68 | a non-empty saved domain is returned as it is; a URL taken from `RENDER_EXTERNAL_URL` or `DOMAIN` never ends with `/`; with neither, the URL starts with `http://localhost:` |
| `Domain.SetDomain` | app.py:70-71 | `domain.json` is replaced by `{"domain": d.rstrip("/")}` alone |
| `Domain.WithScheme` | app.py:113-115 | a domain without `http://` or `https://` gets `https://` in front; one with a scheme is left as it is |
| `Domain.SetDomainArgument` | app.py:107-112 | no argument iff `split(maxsplit=1)` gives fewer than two parts; an argument is non-empty and has no surrounding whitespace |
| `Domain.SetDomainArgumentOf` | app.py:107-112 | `/setdomain <gap> <arg>` with a trimmed `arg` yields exactly `arg` |
| `Domain.DomainPriority` | app.py:54-68 | saved non-empty domain, else `RENDER_EXTERNAL_URL` without trailing `/`, else `DOMAIN` without trailing `/`, else `http://localhost:` + `PORT` (default `8080`) |
| `Domain.UnreadableMeansUnset` | app.py:54-58 | a missing or corrupt `domain.json` gives the same base URL as no saved domain or an empty one |
| `Domain.DefaultDomain` | app.py:67-68 | with nothing saved or configured, the base URL is `http://localhost:8080` |
| `Domain.SetThenGet` | app.py:54-71 | after `set_domain(d)`, `get_domain()` returns `d.rstrip("/")` whatever the environment, when that is non-empty |
| `Domain.StoredDomainShape` | app.py:112-116 | what `/setdomain` stores starts with `http:` or `https:`, and `get_domain()` returns it unchanged |
| `Domain.StoredSchemeIff` | app.py:112-116 | the stored domain keeps its full `http://` or `https://` prefix iff a character other than `/` follows the scheme |
| `Domain.HostlessDomainLosesScheme` | app.py:112-116 | `/setdomain https://` stores `https:`, which has no full scheme prefix |
| `Gateway.Chunks` | app.py:156 | `iter_content(8192)` yields non-empty chunks of at most 8192 bytes |
| `Gateway.ChunksReassemble` | app.py:156 | the chunks concatenate back to exactly the upstream body |
| `Gateway.Ok` | app.py:139 | `r.ok` fails exactly for a 4xx or a 5xx status |
| `Gateway.HasMeta` | app.py:130 | `meta` is truthy iff the record exists and has at least one field |
| `Gateway.RootDownload` | app.py:127-158 | no upstream request iff there is no non-empty `"current"` record, and then the blank `text/html` page; the status is 200, 500 or 502; a non-200 answer is an error page with no attachment; the first request asks about the stored `file_id`; when the answer is 500 or 200 is stated by `Gateway.ServerErrorIff`, and which requests are made on each path by `Gateway.CallTrace` |
| `Gateway.BadGatewayIff` | app.py:138-150 | with a record, the answer is 502 iff `getFile` has an error status or no `result.file_path`, or the content request has an error status |
| `Gateway.ServerErrorIff` | app.py:134-158 | with a record, the answer is 500 iff `getFile` raises or, after a good `getFile` answer, the content request raises; it is 200 iff both requests answer with an OK status and `getFile` gives a path |
| `Gateway.CallTrace` | app.py:138-150 | with a record, the content request is made iff `getFile` answers with an OK status and a path, and it asks for that path; a failed, path-less or raised `getFile` ends the view after one request |
| `Gateway.SuccessfulDownload` | app.py:134-158 | when both requests succeed: exactly the two requests, status 200, the upstream bytes, `Content-Disposition: attachment; filename="<name or file>"`, and the upstream content type or `application/octet-stream` |
| `Gateway.NoRecordNoCall` | app.py:129-132 | a missing or corrupt store, an empty store and an empty `"current"` record all give the blank page with no upstream request |
| `Conversation.CommandText` | app.py:77 | the command filter reads a non-empty text; when the text is missing or empty it reads the caption, and nothing when neither is there |
| `Conversation.IsCommand` | app.py:77 | a message passes `Command(name)` only if its text starts, after optional whitespace, with the word `/name` |
| `Conversation.OnStart` | app.py:77-83 | only an admin is moved into `waiting_for_file`; the rejection is sent iff the sender is not an admin; no other sender's state and neither file changes; only-admins-wait is kept |
| `Conversation.OnFile` | app.py:85-99 | a non-admin changes nothing; for an admin `files.json` becomes the single `"current"` record of the document (name or `file`), the sender becomes idle, the reply carries the base URL and `/`, and no other sender's state changes |
| `Conversation.OnSetDomain` | app.py:101-117 | the domain is written iff an admin's text has an argument; what is written has a scheme and is echoed followed by `/`; every other case changes nothing |
| `Conversation.OnGetLink` | app.py:119-124 | a link is sent iff the sender is an admin, and it is the base URL followed by `/`; otherwise the rejection |
| `Conversation.Step` | app.py:77-124 | handlers are tried in registration order; a non-admin's message changes nothing; only a document from a waiting sender writes `files.json` and only `/setdomain` writes `domain.json`; no handler matching means no reply; only-admins-wait is kept |
| `Conversation.StartByStranger` | app.py:77-81 | a non-admin's `/start` gets the rejection and changes nothing |
| `Conversation.StartByAdmin` | app.py:77-83 | an admin's `/start` puts that admin, and no one else, into `waiting_for_file`, and leaves both files alone |
| `Conversation.FileByAdmin` | app.py:85-99 | an admin's document while waiting makes the store exactly `{"current": {file_id, name or "file"}}`, clears the state and replies with the base URL and `/` |
| `Conversation.DocumentWhileIdle` | app.py:85 | a document from a sender who is not waiting never touches the store |
| `Conversation.FileByStranger` | app.py:85-89 | a non-admin's document, even in `waiting_for_file`, gets the rejection and changes neither the store nor the state |
| `Conversation.SetDomainWithoutArgument` | app.py:107-110 | `/setdomain` without an argument replies with the usage text and writes nothing |
| `Conversation.SetDomainThenGetLink` | app.py:101-124 | after `/setdomain <arg>`, the stored domain starts with `http:` or `https:`, and `/getlink` replies with it followed by `/` |
| `Conversation.RunKeepsWaitingAdmins` | app.py:77-99 | every sequence of messages keeps "only admins wait for a file" |
| `Conversation.StrangersNeverWrite` | app.py:77-124 | messages from non-admins, whatever they contain, never change `files.json` or `domain.json` |
| `Conversation.SlashStartIsStart` | app.py:77 | the text `/start` passes the `start` command filter |
| `Conversation.StartThenUpload` | app.py:77-99 | an admin's `/start`, then a document from the same admin that is not itself a `/start`, leaves exactly that document in the store and the admin idle |
| `Conversation.UploadThenDownload` | app.py:85-158 | after an admin's upload, `GET /` asks Telegram about that document's `file_id`; a 200 answer names the file by its name, or `file` |
| `RelayBot.Relay.constructor` | app.py:27 | the bot starts with no conversation state and the files found on disk |
| `RelayBot.Relay.CmdStart` | app.py:77-83 | non-admin: rejection, state unchanged; admin: prompt, state set to `waiting_for_file`; only-admins-wait is kept |
| `RelayBot.Relay.HandleFile` | app.py:85-99 | non-admin: rejection, nothing changes; admin: the store is overwritten with the one record, the sender's state is removed, and the reply carries the link; only-admins-wait is kept, and while it holds the sender is an admin and the rejection is never sent |
| `RelayBot.Relay.CmdSetDomain` | app.py:101-117 | non-admin: rejection; no argument: usage; otherwise `domain.json` holds the normalised domain and the reply echoes it followed by `/` |
| `RelayBot.Relay.CmdGetLink` | app.py:119-124 | the reply is the rejection iff the sender is not an admin; otherwise the base URL followed by `/` |
| `RelayBot.Relay.Dispatch` | app.py:77-124 | routing a message to the first matching handler changes the fields and replies exactly as `Conversation.Step` says; only-admins-wait is kept |

## Left out

- Bot and Dispatcher construction, long polling, `delete_webhook` and the
  `TelegramConflictError` handling (app.py:161-177). These are transport
  and process control.
- Flask start-up, the server thread and `main` (app.py:179-194). The two
  event loops can race on `files.json`; the model handles one event at a
  time.
- The network itself. Each Telegram request is an abstract reply given
  as input. The bot token, the URLs and timeouts are not modelled, and
  neither is a failure while streaming an already-started response.
- JSON text and file handles. A file is either unreadable or a parsed
  document. Records are objects with string values. A top-level JSON
  value that is not an object, or a non-string field, written to the
  files by hand, is not modelled.
- `save_json` failing with an I/O error.
- The wording of the replies. The model keeps which reply was chosen and
  the links it carries.
- FSM state is keyed by sender only, not by chat and sender. The model
  assumes private chats.
- `Conversation.OnStart`, `Conversation.OnFile` and the matching
  `RelayBot.Relay` methods assume that sending the reply succeeds. In
  `app.py` the reply is sent before the state changes. If the prompt
  fails to send, `cmd_start` never sets `waiting_for_file`. If the
  confirmation fails, `handle_file` has already rewritten `files.json`
  but never clears the state, so the admin stays in `waiting_for_file`.
  The model does not capture these failed sends.
- `Conversation.IsCommand`: a command addressed as `/start@botname` is
  not recognised. Checking that mention needs the bot's user name, which
  comes from the network. Its contract states only one direction, that a
  matching message starts with the word `/name`. The converse follows
  from the body and is used for `/start` in
  `Conversation.SlashStartIsStart`.
- `PyStr.ParseInt`: it accepts ASCII digits with an optional sign and
  surrounding whitespace. Python's `int()` also accepts digit groups
  separated by `_` and non-ASCII decimal digits.
- `Gateway.RootDownload`: the 500 and 502 error pages are modelled as an
  opaque `ErrorPage` body. A `file_path` that is not a string is not
  modelled.

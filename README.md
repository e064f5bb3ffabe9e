# qBittorrent Web API client: request building and authenticated dispatch

A Dafny model of the core of `python-qBittorrent`'s `Client` class: the part of the
client that has logic of its own rather than being a one-line mapping of a method to
an endpoint.

- **Batch-target normaliser** (`Infohash`): `_process_infohash_list` turns one
  infohash, a list of infohashes or the sentinel `"all"` into the `hashes` form
  value: lower-cased, `|`-joined for a list.
- **Session and dispatch** (`QBittorrent.Client`, `Dispatch`): the client holds the
  credentials, the base URL, the 403 retry bound and a session. `login` replaces the
  session, posts the credentials and succeeds only on the body `Ok.`. The credential
  setters change their field(s) and log in again. `_request` sends a call; while a
  403 comes back and `attempt <= max_attempts_on_403`, it logs in again and re-sends
  the same call with `attempt + 1`. The recursion is a loop in `Client.Request`, one
  attempt per `Client.Attempt`. `Dispatch.Call` is a recursive reference definition
  of the same behaviour, and the retry properties are lemmas about it.
- **Response normalisation** (`Http.Normalise`): statuses 400–599 raise. An empty body
  is an empty JSON object. Any other body is the parsed JSON, or the text itself when
  it does not parse.
- **Request-data builders** (`Params`): the base URL, the `status` to `filter` rename
  in `torrents`, the option mapping in `download_from_link` and `download_from_file`,
  the `deleteFiles` flag in `_delete`, and the argument checks of
  `set_file_priority`.

The service is a fixed sequence of `(status, text)` answers held by the client. Every
HTTP call takes the next answer, including the login POST. When none is left, the call
fails with `ConnectionFailed`. The session is a generation number: 0 before the first
login, and every login increments it. `Client.sent` records every call issued, in
order, each with the session it went out on. So a retry can be seen to travel on the
session its re-login opened (`Dispatch.RetryOnFreshSession`). The JSON parser is a
partial function `string -> Option<Json>` given to the client when it is created.

Behaviour of the code worth stating on its own terms:

- The docstring of `max_attempts_on_403` (Client.py:36-37) calls it the maximum number
  of times a request is made after a 403 and a re-login. The retry test at line 164 is
  `attempt <= max_attempts_on_403`, and `attempt` starts at 0. So against a server
  that always answers 403, a call makes `max_attempts_on_403 + 1` re-logins and
  `max_attempts_on_403 + 2` requests in all before the 403 is raised
  (`Dispatch.AlwaysForbiddenFromStart`). That is `max_attempts_on_403 + 1` requests
  after a 403 and a re-login, one more than the docstring's bound.
- A re-login during a retry (line 165) raises `WrongCredentials` from `login`
  (line 202), and `_request` does not catch it. The call ends with that exception
  (`Dispatch.LoginFailurePropagates`).
- `login` replaces the session before it posts the credentials. A rejected login
  therefore still leaves a new session in place (`Client.Login`).
- The normaliser at line 491 joins the lower-cased list with `|`. An empty list
  therefore gives the empty string, and so does an empty single infohash.
- `set_file_priority` raises `ValueError` or `TypeError` (`InvalidPriority`,
  `FileIdNotInt`). Following Python's `==` and `isinstance`, a `bool` passes both
  checks.

## Model

The one-line helpers `Http.Truthy` (Client.py:414, 447), `Http.IsErrorStatus` (168),
`Params.UrlsField` (417-420), `Params.IsKnownPriority` (685) and `Params.IsPythonInt`
(687) carry no contract of their own. What they mean is stated by the contracts of
`Params.LinkOptions`, `Params.FileOptions`, `Http.Normalise`, `Params.LinkListRoundTrip`,
`Params.FilePriorityForm` and `Params.AcceptedIntPriorities`.

| member | source | states |
|---|---|---|
| Strings.Lower | qbittorrent/Client.py:491-493 | `str.lower` on ASCII: same length, each character lower-cased, only `A`–`Z` change |
| Strings.LowerIdempotent | qbittorrent/Client.py:493 | lower-casing an already lower-cased string changes nothing |
| Strings.SplitJoin | qbittorrent/Client.py:491 | splitting a `sep.join` of separator-free parts (at least one) gives back the parts in order |
| Strings.JoinSplit | qbittorrent/Client.py:491 | re-joining the pieces of any string with the same separator rebuilds it |
| Strings.DigitsValueOfNatToString | qbittorrent/Client.py:441 | the decimal rendering used in `"torrents%s" % i` reads back as `i` |
| Strings.NatToStringInjective | qbittorrent/Client.py:441 | distinct indexes render to distinct decimal strings |
| Infohash.LowerAll | qbittorrent/Client.py:491 | the comprehension keeps length and order and lower-cases each hash |
| Infohash.ProcessInfohashList | qbittorrent/Client.py:483-494 | the `hashes` value has no capital letter; a single target keeps its length; an empty list gives the empty string (lemmas below: splitting, piecewise lower-casing, idempotence) |
| Infohash.SingleIsLowered | qbittorrent/Client.py:492-493 | a single target is lower-cased as a whole, keeps its length, and gains or loses no pipe character |
| Infohash.AllIsUnchanged | qbittorrent/Client.py:490-494 | the sentinel `"all"` normalises to `"all"` |
| Infohash.SingleIdempotent | qbittorrent/Client.py:493 | normalising a normalised single target changes nothing |
| Infohash.ManyRoundTrip | qbittorrent/Client.py:490-491 | for a non-empty list of hashes without a pipe character, splitting the wire value on the pipe character gives the lower-cased list, in order |
| Infohash.ManyIsPiecewise | qbittorrent/Client.py:491 | the wire value of such a list has one piece per hash, the i-th piece being the i-th hash lower-cased |
| Infohash.MixedCaseListExample | qbittorrent/Client.py:490-491 | `["AB12", "cd34"]` becomes `ab12` and `cd34` joined by one pipe character |
| Http.BaseUrl | qbittorrent/Client.py:42-45 | the base URL starts with the root, ends in `/api/v2/`, and adds `/` only when the root does not end in one |
| Http.BaseUrlSlashInsensitive | qbittorrent/Client.py:42-43 | a root without the trailing slash and the same root with it give the same base URL |
| Http.Normalise | qbittorrent/Client.py:168-179 | fails with the status and URL exactly for statuses 400–599; otherwise an empty body is `{}`, a JSON body its parsed value, any other body its own text |
| Http.ErrorIgnoresBody | qbittorrent/Client.py:168-171 | for an error status the body makes no difference to the outcome |
| Http.PlainTextExample | qbittorrent/Client.py:174-177 | a 200 answer `v4.3.2` that does not parse comes back as the text `v4.3.2` |
| Dispatch.LoginOutcome | qbittorrent/Client.py:199-202 | a login succeeds if and only if an answer arrives and its body is exactly `Ok.` |
| Dispatch.Call | qbittorrent/Client.py:142-179 | the reference definition of `_request` from `attempt` on: at least one request; a call that returns data made exactly one more request than logins (it ended on an answer that was not retried); a call that ends in `WrongCredentials` ended on a login (bounds and scenarios in the lemmas below) |
| Dispatch.RetryStep | qbittorrent/Client.py:164-166 | a 403 within budget plus an accepted login is one request and one login, then the same call with `attempt + 1` |
| Dispatch.CallBounded | qbittorrent/Client.py:164-166 | against any server: at most the retry budget of logins, requests equal logins or one more, and exactly the answers used are consumed |
| Dispatch.RecoversAfterForbidden | qbittorrent/Client.py:164-168 | `n` 403s within budget, each followed by an accepted login, then a non-403 answer: `n + 1` requests, `n` logins, and the last answer's normalised result |
| Dispatch.ExhaustsRetries | qbittorrent/Client.py:164-168 | against 403s beyond the budget: budget + 1 requests, budget logins, then the 403 is raised |
| Dispatch.AlwaysForbiddenFromStart | qbittorrent/Client.py:164-168 | from attempt 0 against a server that only answers 403: `max + 2` requests, `max + 1` logins, then the 403 |
| Dispatch.LoginFailurePropagates | qbittorrent/Client.py:164-166 | a re-login rejected after `n` successful rounds ends the call with `WrongCredentials` after `n + 1` requests and `n + 1` logins |
| Dispatch.RetryOnFreshSession | qbittorrent/Client.py:160-166 | in the calls a dispatch issues, sending k goes out on session `s + k`, the login after it on `s + k + 1`, and the retry on that same new session |
| Params.RenameFilter | qbittorrent/Client.py:255 | `status` becomes a name other than `status`; every other name is kept |
| Params.FilterParams | qbittorrent/Client.py:252-256 | the parameters built from the keywords, later ones overriding earlier ones: `status` is never a parameter and there are at most as many parameters as keywords (keys and values in the next two rows) |
| Params.FilterParamsKeys | qbittorrent/Client.py:252-256 | the parameters sent are exactly the keyword names with `status` renamed to `filter`; `status` itself is never sent |
| Params.FilterParamsValues | qbittorrent/Client.py:252-256 | each parameter carries the value of the last keyword sent under that name |
| Params.TorrentsParams | qbittorrent/Client.py:252-256 | the dictionary filled keyword by keyword equals the rename of the whole keyword list |
| Params.LinkOptions | qbittorrent/Client.py:409-420 | all original options are kept; `savepath` is copied from `save_path` only when `save_path` is truthy and `savepath` is not; `urls` is the links joined by newlines, or the single link |
| Params.LinkOptionsIdempotent | qbittorrent/Client.py:413-415 | mapping the options a second time changes nothing |
| Params.LinkListRoundTrip | qbittorrent/Client.py:417-418 | for a non-empty list of links without line breaks, splitting `urls` on newlines gives back the links |
| Params.FileFieldInjective | qbittorrent/Client.py:440-441 | different positions in a file list get different part names |
| Params.FileFieldsCount | qbittorrent/Client.py:438-441 | `n` files get `n` distinct part names |
| Params.TorrentFiles | qbittorrent/Client.py:438-443 | one file goes under `torrents`; the i-th file of a list goes under `torrents<i>`, and no file of the list is lost |
| Params.FileOptions | qbittorrent/Client.py:445-448 | all options are kept, and a truthy `save_path` sets `savepath`, overriding one already given |
| Params.SavePathPrecedence | qbittorrent/Client.py:409-448 | when both path options are truthy, the link form keeps `savepath` while the file form takes `save_path` |
| Params.DeleteForm | qbittorrent/Client.py:609-610 | the delete form holds exactly the normalised `hashes` and the JSON-encoded `deleteFiles` flag |
| Params.JsonBool | qbittorrent/Client.py:610 | `json.dumps` of the flag reads back as the same flag |
| Params.DeleteFlagRoundTrip | qbittorrent/Client.py:610 | the encoded flag reads back as the flag given |
| Params.FilePriorityForm | qbittorrent/Client.py:685-690 | succeeds if and only if the priority is one of 0, 1, 2, 4, 6, 7 (bools included) and the file id is a Python int; the priority is checked first; on success the form holds the lower-cased hash, the id and the priority |
| Params.AcceptedIntPriorities | qbittorrent/Client.py:685-686 | an integer priority is accepted exactly when it is in {0, 1, 2, 4, 6, 7} |
| QBittorrent.Client.constructor | qbittorrent/Client.py:39-52 | stores the credentials, the base URL built from the root and the retry bound; no session yet |
| QBittorrent.Client.LoginRequest | qbittorrent/Client.py:194-198 | the login is a POST to `auth/login` below the base URL carrying the current username and password |
| QBittorrent.Client.Transmit | qbittorrent/Client.py:157-162 | one HTTP call is recorded with the current session and takes the service's next answer, if any |
| QBittorrent.Client.Login | qbittorrent/Client.py:181-202 | replaces the session, sends one login call on the new session for the current credentials, and fails unless the answer is `Ok.` |
| QBittorrent.Client.Connect | qbittorrent/Client.py:16-55 | a client exists after construction exactly when the first login succeeds; it then has the given base URL, credentials, retry bound (3 by default) and parser, session 1 and one login call on it on record |
| QBittorrent.Client.SetUsername | qbittorrent/Client.py:61-71 | changes only the username, then logs in once with the new username |
| QBittorrent.Client.SetPassword | qbittorrent/Client.py:77-87 | changes only the password, then logs in once with the new password |
| QBittorrent.Client.UpdateCredentials | qbittorrent/Client.py:103-117 | sets both credentials before one login, so that login carries the new pair |
| QBittorrent.Client.Attempt | qbittorrent/Client.py:155-166 | one send of the request, and on a retried 403 one login; the state either finishes the call as `Call` prescribes or is one retry further |
| QBittorrent.Client.Request | qbittorrent/Client.py:142-179 | outcome, session, remaining answers and calls issued are those of `Call` from attempt 0; the calls alternate between the identical request to base URL + endpoint and the login, sending k on session `s + k` and login k on the session `s + k + 1` it opens |
| QBittorrent.Client.Torrents | qbittorrent/Client.py:238-258 | a GET of `torrents/info` with the renamed filters, dispatched as `Request` prescribes |
| QBittorrent.Client.DownloadFromLink | qbittorrent/Client.py:398-426 | a POST of `torrents/add` with the mapped options and the placeholder part |
| QBittorrent.Client.DownloadFromFile | qbittorrent/Client.py:428-449 | a POST of `torrents/add` with the mapped options and one part per file |
| QBittorrent.Client.Delete | qbittorrent/Client.py:602-611 | a POST of `torrents/delete` with the normalised target and the flag |
| QBittorrent.Client.SetFilePriority | qbittorrent/Client.py:674-692 | invalid arguments fail with nothing sent and no state changed; otherwise a POST of `torrents/filePrio` with the checked form |

## Left out

- Real HTTP (`requests.Session`, `get`, `post`) is replaced by the fixed answer sequence. The `verify` and `timeout` settings are left out, and so is setting the response encoding. A timeout or connection error is modelled only as running out of answers (`ConnectionFailed`).
- The text of an `HTTPError` is not modelled. The error carries the status and the URL.
- `json.loads` is the parser given to the client. `json.dumps` is modelled only for the boolean in `_delete`. The JSON encoding in `set_preferences`, `force_start` and `set_super_seeding` is left out.
- `_get` and `_post` are folded into `Client.Request` through its verb argument. The query parameters of a GET travel in the same `form` field as the body of a POST.
- The other endpoint wrappers (`logout`, `shutdown`, `pause`, `resume`, the limit and priority commands and the rest) are left out. Each calls `_get` or `_post` once. The endpoint is fixed, or for `get_torrent` and its siblings (Client.py:260-308) a fixed prefix plus the lower-cased infohash. The form is empty, built from the arguments, or the normalised target. `set_preferences` (Client.py:780-790) posts a JSON string with its own header. `Client.Delete` stands for the commands that take a target.
- The `preferences` proxy is left out. It is a subclass generated at run time, and its write path sets `url` and `session` rather than `_url` and `_session`, so it cannot work as written.
- `search` is left out. It polls with `sleep`, so it depends on time and has no bound.
- The `LoginRequired` exception and the `_is_authenticated` flag are left out. Nothing raises the exception, and nothing ever sets the flag to true: it is set to false at Client.py:52 and copied into the proxy at Client.py:363.
- Lower-casing covers ASCII only. Infohashes are hexadecimal.
- Argument values are Python `str`, `int`, `bool` and `None`. Other values, such as floats, tuples or nested lists, are not modelled. So a priority of `1.0`, which Python accepts because `1.0 == 1`, cannot be expressed.
- The keyword arguments of `download_from_link` and `download_from_file` are a map, so their key order is not modelled. In `torrents` the keywords are a sequence, because a later keyword overrides an earlier one sent under the same name.

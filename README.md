# dasq — a verified model of the signal client

`dasq.py` is a thin Python client for the local HTTP service of a Das
Keyboard (port 27301) that lights keys. A `Signal` is a record of string
attributes (backend URL, zone, color, effect, pid, client name, message and
name) set through fluent `with_*` setters. `finalize()` builds a JSON body
from a whitelist of those attributes and POSTs it. `delete()` removes a
signal by pid and zone. A `QSession` makes signals from shared keyword
defaults, passes each one to a per-signal hook, keeps every signal it made,
and deletes them all on scope exit when it was created with
`delete_on_exit`. A `SignalStream` lights one key per character of the
text shifted into it.

The model has seven modules, one file each:

- `names.dfy` (`Names`): Python's string order, `dir()` as sorting and
  deduplicating an object's attribute names, and the whitelist filter of
  `finalize`.
- `values.dfy` (`Values`): attribute values (a string or a list of
  strings), their f-string form, ASCII `str.upper`, and the way `list +=
  str` extends a list by one-character strings.
- `json.dfy` (`Json`): the text `json.dumps` writes for a payload.
- `transport.dfy` (`Transport`): HTTP requests as records appended to the
  log of a `Network` object. A POST record keeps its payload, and its body
  text is `Json.Dumps` of that payload. A DELETE record keeps pid and zone,
  and its path is `/api/1.0/signals/pid/{pid}/zoneId/{zone}`.
- `signal.dfy` (`Signals`): the `Signal` class, its attribute state, its
  payload, the delete request, and the per-zone fan-out.
- `session.dfy` (`Sessions`) and `stream.dfy` (`Streams`): `QSession` and
  `SignalStream`.

`finalize` picks its keys as `[f for f in dir(self) if f in field_names]`.
The model proves that this is always the seven whitelisted names in
alphabetical order: `clientName`, `color`, `effect`, `message`, `name`,
`pid`, `zoneId`. This holds whatever the signal's state, because `dir()`
sorts and every whitelisted name is a dataclass field. The payload is
defined by that fixed order, and `Finalize` computes it through `dir()` as
the source does.

Where the code and its documentation differ, the model follows the code:

- `with_client_name` writes an attribute `client_name` that no body
  carries. The serialised `clientName` keeps its old value.
- With a list of zones, `finalize` calls `deepcopy`, which the module never
  imports. A non-empty list therefore raises `NameError` before any request
  is sent, and an empty list returns `[]`. The fan-out that loop describes
  (copy `k` gets `zoneId[k]`, and `color[k]` when the color is a list) is
  modelled separately as `Signals.FanOut`, with its properties proved.
- `__exit__` deletes nothing unless `delete_on_exit` was set, and it never
  suppresses an exception.

Each class is modelled as a Dafny class whose methods update its fields.
`Signal.State()` reads the fields as a `SignalState` value, and the lemmas
are about that value. The per-signal hook is a function on `SignalState`
whose result the new signal takes on. The network is the `Network` log.
The color module is represented by two parameters: the default color text
and the RGB-to-hex function.

## Model

| member | source | states |
|---|---|---|
| Names.Dir | dasq.py:82 | `dir()` returns the attribute names strictly sorted by code point, with the same set of names |
| Names.Insert | dasq.py:82 | inserting a name into a sorted list of names keeps it strictly sorted and adds exactly that name |
| Names.Filter | dasq.py:82 | the comprehension keeps exactly the names that are in the whitelist |
| Names.FilterKeepsOrder | dasq.py:82 | filtering a sorted list of names leaves it sorted |
| Names.SortedUnique | dasq.py:82 | two strictly sorted lists with the same names are equal, so the key order is determined |
| Names.LessTotal | dasq.py:82 | Python's string order compares any two distinct names |
| Names.FieldOrderSorted | dasq.py:81 | the seven whitelisted names, in the listed order, are strictly sorted |
| Names.PayloadKeysAreFieldOrder | dasq.py:81-82 | whenever every whitelisted name is an attribute, the keys picked from `dir()` are exactly `clientName, color, effect, message, name, pid, zoneId` |
| Values.UpperAt | dasq.py:129 | `upper()` keeps the length and maps each character to its upper-case form, leaving no lower-case ASCII letter |
| Values.UpperIdempotent | dasq.py:129 | upper-casing twice is the same as upper-casing once |
| Values.ExtendByCharacters | dasq.py:86 | `returns += text` keeps the list's old items and appends one single-character string per character of the text, in order |
| Values.JoinCharacters | dasq.py:86 | joining the characters appended to the list gives the JSON text back |
| Transport.DeletePathRoundTrip | dasq.py:90 | for a pid without '/', the pid and the zone can both be read back from the delete path |
| Transport.Network.Post | dasq.py:85 | a POST appends exactly one request, which carries the backend URL, the endpoint and the payload |
| Transport.Network.Delete | dasq.py:90 | a DELETE appends exactly one request, which carries the backend URL, the pid and the zone |
| Signals.PayloadKeysFollowDir | dasq.py:81-83 | for every signal state, the keys picked from `dir(self)` are the seven whitelisted names in alphabetical order; `backendUrl`, `subscribers`, `response` and `client_name` never are |
| Signals.PayloadFields | dasq.py:81-85 | the payload maps each whitelisted key to the signal's current value of that attribute |
| Signals.DefaultPayload | dasq.py:13-20 | a signal built with no keyword arguments posts client "Python Script", the default color, SET_COLOR, empty message and name, DK5QPID and KEY_Q |
| Signals.ClientNameNotSerialized | dasq.py:56-58 | `with_client_name` adds the attribute `client_name` but leaves the payload keys unchanged |
| Signals.DefaultDeleteRequest | dasq.py:89-90 | deleting a default signal targets `http://localhost:27301/` and the path `/api/1.0/signals/pid/DK5QPID/zoneId/KEY_Q` |
| Signals.FanOutPairs | dasq.py:73-79 | n zones give n copies in order: copy k has zone k, and color k or the shared scalar color; no zones give no copies; a color list shorter than the zone list raises IndexError at its first missing index |
| Signals.Signal.constructor | dasq.py:24-35 | every attribute is the keyword argument when given and the module default otherwise; there is no `client_name` |
| Signals.Signal.Become | dasq.py:105 | the hook's changes replace the signal's attributes |
| Signals.Signal.ForZone | dasq.py:37-39 | sets the zone, changes nothing else, and returns the same signal |
| Signals.Signal.WithColor | dasq.py:41-46 | an RGB value is stored as its hex text and anything else as given; nothing else changes, and the same signal is returned |
| Signals.Signal.WithEffect | dasq.py:48-50 | sets the effect, changes nothing else, and returns the same signal |
| Signals.Signal.WithPid | dasq.py:52-54 | sets the pid, changes nothing else, and returns the same signal |
| Signals.Signal.WithClientName | dasq.py:56-58 | sets the attribute `client_name` only; the payload keys are unchanged; returns the same signal |
| Signals.Signal.WithMessage | dasq.py:60-62 | sets the message, changes nothing else, and returns the same signal |
| Signals.Signal.WithName | dasq.py:64-66 | sets the name, changes nothing else, and returns the same signal |
| Signals.Signal.Finalize | dasq.py:71-87 | single zone: exactly one POST of the payload when publishing and none otherwise; the result ends with the body's characters, and is exactly those characters when not publishing. Empty zone list: `[]` and no request. Non-empty zone list: NameError and no request |
| Signals.Signal.Delete | dasq.py:89-90 | exactly one DELETE, addressed by the signal's current backend URL, pid and zone |
| Sessions.DeletePlanAt | dasq.py:112-116 | the delete plan has one request per signal, and the i-th request addresses the i-th signal |
| Sessions.QSession.constructor | dasq.py:97-101 | keeps the flag, the hook and the defaults, and starts with no signals |
| Sessions.QSession.Signal | dasq.py:103-107 | returns a fresh signal built from the defaults and passed through the hook, and appends it to the session's list |
| Sessions.QSession.Enter | dasq.py:109-110 | returns the session itself |
| Sessions.QSession.Exit | dasq.py:112-116 | with `delete_on_exit`, issues one DELETE per retained signal in list order; without it, issues nothing; never suppresses |
| Streams.StreamRequestsAt | dasq.py:128-136 | a text gives one POST per character, and the i-th targets `KEY_<i-th character>` |
| Streams.KeyPayload | dasq.py:131-135 | a key's payload is the session's payload with only `zoneId` replaced by `KEY_<c>` |
| Streams.SignalStream.constructor | dasq.py:124-126 | keeps the delay and the session |
| Streams.SignalStream.Highlight | dasq.py:131-135 | one character adds one fresh session signal aimed at its key and posts its payload |
| Streams.SignalStream.Feed | dasq.py:128-136 | `stream << text` adds one fresh signal per character of `text.upper()`, in order, each aimed at its key, and leaves the earlier signals unchanged; the log gains exactly the matching POSTs; returns the same stream |
| Streams.StreamDefaults.constructor | dasq.py:124 | the shared default session is a fresh, non-deleting session with no defaults and the identity hook |
| Streams.StreamDefaults.NewStream | dasq.py:124-126 | a stream uses the given session, or else the shared default session |

## Left out

- HTTP itself (`urljoin`, the headers and status codes, transport errors) is left out. Requests are records in a log, and the server's reply is an opaque sequence of strings.
- Signals.Signal.Finalize: when publishing, the result is the reply's pieces followed by the body's characters. The contract constrains only the part that is the body's characters, because the reply's content is decided by the server.
- Transport.Network.Post: the reply's pieces are plain strings rather than the byte chunks that iterating a `requests` response yields.
- `json.dumps` string escaping is not modelled. Quotes, backslashes and control characters inside values are written as they are, and non-ASCII characters are not written as `\uXXXX` escapes, which the default `ensure_ascii` would produce.
- Values.Format: a list is written with every item in single quotes, as it is. Python's `repr` puts an item that contains `'` and no `"` in double quotes, and escapes backslashes, the quote character and non-printable characters. A DELETE path built from a list-valued `zoneId` differs from the source for such items.
- `str.upper` is modelled for ASCII only. Other characters are left unchanged.
- The color module is not part of this model. `DEFAULT_COLOR` is a parameter, and so is `hex_format` for `with_color`.
- `delete_after` (a `threading.Timer`) and the `time.sleep(delay)` of `SignalStream` are left out because they involve time and threads. The delay is kept as a field only.
- `as_dict` is left out. It calls `zip` with one argument, so it builds 1-tuples and fails inside `dict()`. No other member uses it.
- `QSession.subscription` is left out. It indexes the list of signals with a key taken from a dict, and nothing in the core calls it.
- The `subscribers` and `response` fields are left out. They are only listed among the attribute names that `dir()` sees.
- Signal construction with keyword arguments other than the eight modelled attributes is left out.
- The recursive `finalize(endpoint, nublish)` call in the list path is left out. It is never reached, because `deepcopy` raises first.
- The hook's return value is ignored, as in the source. Its effect on the signal is modelled as replacing the signal's attributes.
- Sessions.QSession.Signal: the per-signal hook is assumed to return normally and to change only the attributes of the signal it is given. A hook that raises is not modelled; in the source, the exception propagates and the signal is not appended. A hook that sends requests or changes other signals is not modelled either. The exact-log contracts of `Streams.SignalStream.Highlight` and `Streams.SignalStream.Feed` rest on the same assumption.
- Dunder names in `dir()` are left out. None of them is whitelisted, so they cannot change the keys that are picked.

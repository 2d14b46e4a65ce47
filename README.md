# service-smtp in Dafny

A model of the core of `service-smtp`, a mail-sending dependency for microservices. The
model covers the following parts:

- `SmtpClient` opens a new SMTP connection per message. It formats the sender and
  recipient lists, sets the `to`, `cc`, `Subject` and `From` headers, logs in, sends to the
  `to` and `cc` addresses and quits. Any exception reaches the caller.
- `Connection` opens one connection when it is built and reuses it. Its `send_mail` never
  raises; it reports `(True, '')` or `(False, <traceback>)`.
- `from_name_to_cid` and `from_cid_to_name` convert between a name and a MIME content-id.
  A name becomes the base64 (section 4 of RFC 4648) of its UTF-8 bytes (section 3 of
  RFC 3629), and a content-id is decoded the other way.
- The `Smtp` dependency merges the configured connection options with its own. It keeps
  one `SmtpClient` per worker request and drops it when the request finishes.
- `SmtpProxy` builds an `SmtpClient` for a configured alias. The call's options are laid
  over the proxy's, and the proxy's over the configured ones.

The modules, in dependency order:

- `Wrappers`: `Option` and `Result`.
- `Values`: Python option values, truthiness, `','.join`, and what a configuration lookup
  can give.
- `Utf8`: strict UTF-8 over Python text, where surrogates are code points that do not
  encode. Both round trips are proved.
- `Base64`: the standard-alphabet encoder, and the decoder as CPython's non-strict
  `binascii.a2b_base64` runs it:
  - bytes outside the alphabet are skipped;
  - a `=` that completes a group ends the input;
  - data that ends inside a group is an error.
- `Convert`: `convert.py`.
- `Transport`: the SMTP server seen from the client. It is a `Network` object that records
  every request made (open, set debug level, login, sendmail, quit, `__exit__`). A
  `refuses(history, request)` oracle says which requests raise. `Run` makes a plan of
  requests in order and stops at the first one that raises.
- `Mime`: messages as the `email` package builds them. `Message` is a class whose header
  fields and parts the code changes in place. `MailLib` holds the `email` functions the
  code calls (`Header(...).encode()`, `parseaddr`, `formataddr`, `as_string`) as
  uninterpreted functions.
- `Client`: `client.py`.
- `Connect`: `connect.py`.
- `Dependency`: `dependencies/smtp.py`.
- `Proxy`: `proxy.py`.

The four methods below are proved against a specification function, and the properties
are proved about that function. The methods they call are proved equal to smaller
functions of the model (`FmtMails` to `FormatMails`, `BuildHtml` to `HtmlMessage`, `Post` to
`Posting`, and so on). `Message.Set`, `AddHeader`, `Attach`, `Connection.Release`,
`Smtp.GetInstance` and `Smtp.WorkerFinish` state their new state directly.

| method | specification function |
|---|---|
| `SmtpClient.SendMail` | `ClientSend` |
| `Connection.SendMail` | `ConnSend` |
| `Smtp.Setup` | `SetupOptions` |
| `SmtpProxy.Call` | `ClientOptions` |

`Keyword`, `Configured`, `Opening`, `Normalize`, `Headers`, `EnvelopeSender`,
`AddressList`, `FirstFields` and `FromField` are definitions: their contracts spell out the
value they build. What makes them worth having is that the methods are proved equal to
them and the lemmas state properties of them.

## Model

| member | source | states |
|---|---|---|
| Utf8.Encode | service_smtp/core/convert.py:19 | `str.encode()` succeeds exactly when the text has no lone surrogate; the empty text gives no bytes |
| Utf8.DecodeFirst | service_smtp/core/convert.py:28 | a well-formed UTF-8 sequence at the head of the bytes takes at least 1 and at most 4 bytes, never more than there are, and never yields a surrogate |
| Utf8.Decode | service_smtp/core/convert.py:28 | `bytes.decode()` of no bytes is the empty text; a decoded text is never longer than the bytes and holds no surrogate |
| Utf8.DecodeEncode | service_smtp/core/convert.py:19 | decoding the UTF-8 encoding of a surrogate-free text gives the text back |
| Utf8.EncodeDecode | service_smtp/core/convert.py:28 | bytes that decode are the encoding of what they decode to (UTF-8 has no second spelling) |
| Utf8.DecodeCons | service_smtp/core/convert.py:28 | a byte string that decodes is its first code point followed by the decoding of the rest |
| Utf8.DecodeAscii | service_smtp/core/convert.py:19 | ASCII bytes decode to the same values, which is how the base64 output reads back as text |
| Utf8.EncodeAscii | service_smtp/core/convert.py:28 | an ASCII text encodes to the same values |
| Base64.Encode | service_smtp/core/convert.py:19 | `b64encode` of n bytes has 4·⌈n/3⌉ characters |
| Base64.EncodeShape | service_smtp/core/convert.py:19 | `b64encode` output has length 4·⌈n/3⌉; it is alphabet characters followed by exactly (3 − n mod 3) mod 3 pads, never more than two |
| Base64.EncodeIsAscii | service_smtp/core/convert.py:19 | `b64encode` output is ASCII |
| Base64.Feed | service_smtp/core/convert.py:28 | one data character moves the decoder to the next position in its group of four and emits a byte at every position but the first |
| Base64.DecodeEncode | service_smtp/core/convert.py:19-28 | `b64decode(b64encode(b)) == b` for all bytes `b` |
| Base64.RunWithoutPad | service_smtp/core/convert.py:28 | with no `=`, decoding succeeds exactly when the data characters fill whole groups of four |
| Base64.DecodeWithoutPad | service_smtp/core/convert.py:28 | the same from the start state (`binascii.Error`: incorrect padding) |
| Base64.Pads | service_smtp/core/convert.py:28 | k pad characters |
| Base64.RunPads | service_smtp/core/convert.py:28 | a run of k pads succeeds exactly when the group is already complete, or has two or three characters and the pads complete it |
| Base64.RunPadded | service_smtp/core/convert.py:28 | data characters followed by k pads decode exactly when the leftover q of the data (mod 4) is 0, or is 2 or 3 with q + k ≥ 4; a lone leftover character is always an error |
| Base64.DecodePadded | service_smtp/core/convert.py:28 | the same from the start state |
| Base64.ShortPadding | service_smtp/core/convert.py:28 | `"QQ="` is refused: one pad does not complete a group of two |
| Convert.FromNameToCid | service_smtp/core/convert.py:13-19 | succeeds exactly when the name has no lone surrogate (else UnicodeEncodeError), and the content-id is the base64 of the name's UTF-8 bytes |
| Convert.FromCidToName | service_smtp/core/convert.py:22-28 | UnicodeEncodeError exactly when the content-id has a lone surrogate; `binascii.Error` exactly when its bytes do not base64-decode; it returns a name exactly when the content-id has no lone surrogate, its bytes base64-decode, and the decoded bytes are well-formed UTF-8; the decoded bytes are then the UTF-8 encoding of the returned name |
| Convert.NameToCid | service_smtp/core/convert.py:13-19 | `from_name_to_cid` succeeds exactly when the name has no lone surrogate; the content-id is the base64 text with its length, alphabet and trailing `=` |
| Convert.RoundTrip | service_smtp/core/convert.py:13-28 | `from_cid_to_name(from_name_to_cid(n)) == n` |
| Convert.NameToCidInjective | service_smtp/core/convert.py:13-19 | distinct names get distinct content-ids |
| Convert.EmptyName | service_smtp/core/convert.py:19 | the empty name maps to the empty content-id |
| Convert.CidWithoutPadding | service_smtp/core/convert.py:22-28 | an ASCII content-id without `=` whose data does not fill whole groups raises `binascii.Error` |
| Convert.CidBadPadding | service_smtp/core/convert.py:22-28 | an ASCII content-id of data and k pads whose leftover is one character, or two or three characters that the pads do not complete, raises `binascii.Error` |
| Convert.CidNotUtf8 | service_smtp/core/convert.py:22-28 | a content-id that decodes to bytes that are not UTF-8 raises UnicodeDecodeError |
| Convert.CidOfByteFF | service_smtp/core/convert.py:22-28 | `"/w=="` decodes to the byte 0xFF, so `from_cid_to_name` raises UnicodeDecodeError |
| Transport.Network.Request | service_smtp/core/client.py:106-111 | each request is appended to the server's record; it returns exactly when the server does not refuse it |
| Transport.Run | service_smtp/core/client.py:106-111 | the requests a sequence of calls makes are a prefix of the plan, all of it when every call returned |
| Transport.RunStopsAtRefusal | service_smtp/core/client.py:106-111 | every request made returned except, when the plan was cut short, the last, which raised |
| Transport.RunAccepting | service_smtp/core/client.py:106-111 | a server that refuses nothing receives the whole plan |
| Transport.RunCons | service_smtp/core/client.py:106-111 | the first call of a plan is made; the rest only if it returns |
| Transport.RunAfter | service_smtp/core/client.py:106-111 | a plan run after an accepted opening stops at the first refusal, and the step reported is the last request's step |
| Mime.Message.Set | service_smtp/core/client.py:102-105 | `message[name] = value` adds one field at the end and changes nothing else |
| Mime.Message.AddHeader | service_smtp/core/client.py:159 | `add_header` adds one field with its parameters at the end |
| Mime.Message.Attach | service_smtp/core/client.py:155 | `attach` adds one part at the end and leaves the fields alone |
| Values.Join | service_smtp/core/client.py:102-105 | `','.join` of no items is empty and of one item is that item |
| Client.BindOptions | service_smtp/core/client.py:26-34 | `SmtpClient(**options)` binds exactly when `username` and `password` are present and there is no `self` key (which would clash with the bound `self`); they bind to those options, `debug` and `wrap_ssl` to their options or `None`; no positional arguments; the other keys, unchanged, go to `**kwargs` |
| Client.Keyword | service_smtp/core/client.py:26-34 | a keyword parameter takes its option when present, else its default `None` |
| Client.Configured | service_smtp/core/client.py:44-49 | `debug` and `wrap_ssl` are kept as their truth values; the rest is stored as given |
| Client.SmtpClient.constructor | service_smtp/core/client.py:26-49 | the new client holds the bound arguments |
| Client.Opening | service_smtp/core/client.py:51-57 | the connection is SSL exactly when `wrap_ssl`, with the stored positional and keyword arguments |
| Client.SmtpClient.Connect | service_smtp/core/client.py:51-57 | `connect()` makes that opening request and fails exactly when it is refused |
| Client.Normalize | service_smtp/core/client.py:93-101 | `None` becomes `[]`, a single address `x` becomes `[x]`, a list stays as it is |
| Client.FormatMails | service_smtp/core/client.py:59-71 | the formatted list has the input's length and order, element i being address i formatted; it fails exactly when some address fails |
| Client.SmtpClient.FmtMails | service_smtp/core/client.py:59-71 | the loop computes exactly `FormatMails` |
| Client.SmtpClient.FmtArg | service_smtp/core/client.py:93-101 | one of `me`, `to`, `cc` normalised, then formatted when not empty |
| Client.SmtpClient.AddHeaders | service_smtp/core/client.py:102-105 | the fields added are exactly `Headers`: `to`, `cc`, `Subject` and `From`, in that order |
| Client.Headers | service_smtp/core/client.py:102-105 | four fields, `to`, `cc`, `Subject`, `From` in that order, with no parameters: the joined `to` and `cc` lists, the encoded subject and the joined sender list |
| Client.EnvelopeSender | service_smtp/core/client.py:108 | the single formatted sender when there is exactly one, otherwise the username |
| Client.Delivery | service_smtp/core/client.py:106-111 | the plan has four steps with `debug` and three without; it starts with the debug level exactly when `debug` is set and always ends with quit |
| Client.ClientSend | service_smtp/core/client.py:73-111 | the first request is always the opening; the headers added are none or all four |
| Client.RunLoginSendQuit | service_smtp/core/client.py:107-111 | login, sendmail and quit stop at the first refusal |
| Client.RunDelivery | service_smtp/core/client.py:106-111 | the debug level is requested first exactly when `debug` is set; then login, sendmail, quit, stopping at the first refusal |
| Client.DeliveryOutcome | service_smtp/core/client.py:106-111 | the delivery never reports a failure to connect or to format |
| Client.SmtpClient.Deliver | service_smtp/core/client.py:106-111 | the requests made and the outcome are those of running the delivery plan |
| Client.SmtpClient.LoginSendQuit | service_smtp/core/client.py:107-111 | login, sendmail and quit make the requests of running that three-step plan, with its outcome |
| Client.ClientSendSingle | service_smtp/core/client.py:93-101 | a lone address in `me`, `to` or `cc` gives the same `send_mail` as a one-element list holding it |
| Client.ClientSendDelivers | service_smtp/core/client.py:90-111 | once the connection opens and every address formats, `send_mail` is the delivery run with the envelope sender and `to + cc` as recipients |
| Client.ClientSendEarly | service_smtp/core/client.py:90-101 | the first request is always the opening; `send_mail` raises while connecting exactly when it is refused, and while formatting exactly when some address does not format, with nothing after the opening and no header added |
| Client.ClientSendStops | service_smtp/core/client.py:90-111 | unless formatting failed, every request returned but a failing last one, and the step reported is that request's step |
| Client.ClientSendAccepted | service_smtp/core/client.py:90-111 | with a server that refuses nothing, `send_mail` returns after open, [debug level], login, sendmail(sender, to + cc, text) and quit |
| Client.ClientSendReturned | service_smtp/core/client.py:93-111 | a `send_mail` that returns had every address formatted and made every request of its plan; the envelope sender is the single formatted sender, else the username |
| Client.SmtpClient.SendMail | service_smtp/core/client.py:73-111 | outcome, requests and added headers are those of `ClientSend`; the message's parts are unchanged |
| Client.SmtpClient.Dispatch | service_smtp/core/client.py:102-111 | once the addresses are formatted, the headers and the delivery are exactly `Deliveries` |
| Client.SmtpClient.SendTextMail | service_smtp/core/client.py:113-131 | `send_text_mail` is `send_mail` on a UTF-8 `text/plain` message |
| Client.HtmlMessageShape | service_smtp/core/client.py:154-164 | the multipart has 1 + files + images parts: the HTML first, then files, then images in input order; each file part gets an added Content-Type field `application/octet-stream` and an attachment disposition carrying the file name; each image part's Content-ID is the image name |
| Client.SmtpClient.BuildHtml | service_smtp/core/client.py:154-164 | the two loops build exactly `HtmlMessage`, with absent lists counted as empty |
| Client.SmtpClient.NewFilePart | service_smtp/core/client.py:157-159 | a new part with an added Content-Type field `application/octet-stream`, then an attachment disposition named after the file |
| Client.SmtpClient.NewImagePart | service_smtp/core/client.py:162-163 | a new PNG part whose Content-ID is the image name |
| Client.SmtpClient.SendHtmlMail | service_smtp/core/client.py:133-165 | `send_html_mail` is `send_mail` on that multipart |
| Connect.AddressList | service_smtp/core/connect.py:67-78 | a list goes through `formataddr` item by item and fails when an item does; a single value is kept unformatted as a one-item list; `None` is `[]` |
| Connect.AddressListSingle | service_smtp/core/connect.py:67-78 | a lone value is kept unformatted, while the same address as a one-item list goes through `formataddr` and fails when it does |
| Connect.FirstFields | service_smtp/core/connect.py:79-81 | three fields, `to`, `cc`, `Subject` in that order, with no parameters: the joined lists and the subject as given |
| Connect.FromField | service_smtp/core/connect.py:83 | the `From` field is the joined sender list, with no parameters |
| Connect.Posting | service_smtp/core/connect.py:79-90 | a mail is sent exactly when the debug level and the login are accepted, there is a sender `me[0]`, and sendmail from it is accepted; `sent` holds exactly when there is no traceback; the fields added are `to`, `cc`, `Subject`, and `From` too unless the debug level was refused |
| Connect.ConnSend | service_smtp/core/connect.py:65-90 | `send_mail` never raises; `(True, '')` exactly when nothing raised; an unformattable address stops it before any header or request; once every address list is built, the result is `Posting` of those lists |
| Connect.PostingCalls | service_smtp/core/connect.py:79-85 | the requests are [debug level], login, sendmail(me[0], to, text), in order; with no sender, login happens and sendmail does not; otherwise the requests stop at the first refusal |
| Connect.PostingStops | service_smtp/core/connect.py:82-85 | unless the sender is missing, every request returned but a failing last one |
| Connect.Connection.constructor | service_smtp/core/connect.py:38-42 | `debug` and `warp_ssl` are kept as their truth values, with the given server |
| Connect.Connection.Create | service_smtp/core/connect.py:20-42 | building a connection opens an SSL server exactly when `warp_ssl`; a refused opening raises and gives no connection |
| Connect.Connection.Release | service_smtp/core/connect.py:44-46 | `release` is the server's `__exit__` and raises exactly when that is refused |
| Connect.Connection.Post | service_smtp/core/connect.py:79-85 | the body of the `try` computes exactly `Posting`: requests, report, and the headers added before a failure |
| Connect.Connection.PostFrom | service_smtp/core/connect.py:83-85 | after an accepted debug level: From, login and sendmail make exactly the requests, report and headers of `Posting` |
| Connect.Connection.SendMail | service_smtp/core/connect.py:48-90 | report, requests and headers are those of `ConnSend`; the parts are unchanged |
| Connect.Connection.SendTextMail | service_smtp/core/connect.py:92-110 | `send_text_mail` returns `send_mail`'s result on a UTF-8 `text/plain` message |
| Dependency.LookedUp | service_smtp/core/dependencies/smtp.py:35-37 | a missing or `None` configuration entry counts as `{}` |
| Dependency.SetupOptions | service_smtp/core/dependencies/smtp.py:35-38 | after `setup` the keys are the configured ones, the dependency's own and `timeout`; own values win, configured values fill the rest, `timeout` is 5 when neither has it |
| Dependency.SetupIdempotent | service_smtp/core/dependencies/smtp.py:35-38 | a second `setup` with the same configuration changes nothing |
| Dependency.Smtp.constructor | service_smtp/core/dependencies/smtp.py:18-28 | no sessions; the given options, or `{}` when none |
| Dependency.Smtp.Setup | service_smtp/core/dependencies/smtp.py:30-38 | the options become `SetupOptions` of the old ones; the sessions are untouched |
| Dependency.Smtp.GetInstance | service_smtp/core/dependencies/smtp.py:40-48 | a new client built from the options is stored under the request id, replacing any earlier one, and returned; options that do not bind (no credentials, or a `self` key) give TypeError, and the map is unchanged |
| Dependency.Smtp.WorkerFinish | service_smtp/core/dependencies/smtp.py:50-58 | only the request's entry is removed, before its release; an unknown id releases nothing and returns |
| Proxy.ClientOptions | service_smtp/core/proxy.py:37-40 | the client's options are the configured ones updated with the proxy's; a missing alias gives the proxy's alone; a `None` entry raises AttributeError |
| Proxy.Precedence | service_smtp/core/proxy.py:34-39 | call options win over proxy options, which win over the configured ones |
| Proxy.SmtpProxy.constructor | service_smtp/core/proxy.py:18-25 | config and options are stored as given |
| Proxy.SmtpProxy.Call | service_smtp/core/proxy.py:27-40 | the proxy's options are updated with the call's, even when the call then raises; the client is built from `ClientOptions`, or the call raises AttributeError or TypeError |

## Left out

- Network I/O is left out. The SMTP server is the `Network` object and its `refuses` oracle: opening, `set_debuglevel`, `login`, `sendmail`, `quit` and `__exit__` are requests that either return or raise. Sockets, TLS, timeouts and server replies are not modelled.
- Client.HtmlMessageShape: `MIMEText(..., 'base64')` already gives each file part a `Content-Type: text/base64` field, and setting `Content-Type` again appends a second one, so the constructor's field stays the effective type. The constructors' own fields are not modelled, so the model shows only the added field.
- The `email` package is left out. `Header(...).encode()`, `parseaddr`, `formataddr` and `as_string` are the uninterpreted functions of `Mime.MailLib`. The headers the MIME constructors add on their own are not modelled, and neither are body encodings or multipart boundaries.
- `traceback.format_exc()` is left out. The text `Connection.send_mail` returns is represented by the step that raised.
- The framework is left out. `Configure.get`, the YAML lookup, `Dependency` and `WorkerContext` are not modelled. The lookup result (`Values.Lookup`) and the request id are parameters.
- `Configure.get` is not part of this model, so whether `config.update` in `SmtpProxy.__call__` changes the stored configuration is not modelled. Each call sees the lookup as given.
- Dependency.Smtp.WorkerFinish: `SmtpClient` defines no `release` method, so the release is an abstract call. Whether it raises is the `releaseRaises` parameter.
- `Values.Value` holds `None`, booleans, integers and strings. Floats, lists and mappings that a YAML `connect_options` entry can hold are not modelled.
- A single `me`/`to`/`cc` value that is not a string is not modelled. `Values.Arg.One` holds a string, and a list holds strings (`SmtpClient`) or `(name, address)` pairs (`Connection`).
- The `logger` in `client.py` is left out because it is never used.
- Text is a sequence of code points, and a byte is an integer below 256. Python's `str`/`bytes` object identity is not modelled.
- `cli/subctxs/smtp.py` only builds a proxy, and it is not part of this model.

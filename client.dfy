/**
 * `SmtpClient` (service_smtp/core/client.py): opens a new connection per message,
 * formats the address lists into headers, logs in, sends to the `to` and `cc`
 * recipients, and quits. Any exception propagates to the caller.
 */
module Client {
  import opened Wrappers
  import opened Utf8
  import opened Values
  import opened Transport
  import opened Mime

  /** The keyword parameters of `SmtpClient.__init__` other than `**kwargs`. */
  const Parameters: set<string> := {"username", "password", "debug", "wrap_ssl"}

  /** The arguments `SmtpClient.__init__` binds. */
  datatype ClientArgs = ClientArgs(
    args: seq<Value>, username: Value, password: Value, debug: Value, wrapSsl: Value, kwargs: Options)

  /** The value bound to an optional keyword parameter: the option, or `None` when absent. */
  function Keyword(options: Options, name: string): (v: Value)
    ensures name in options ==> v == options[name]
    ensures name !in options ==> v == Null
  {
    if name in options then options[name] else Null
  }

  /**
   * `SmtpClient(**options)`: Python binds the named parameters and leaves the other
   * keys to `**kwargs`; without `username` or `password` the call raises TypeError (`None`),
   * and so does a `self` key, since `self` is already bound to the new object.
   */
  function BindOptions(options: Options): (r: Option<ClientArgs>)
    ensures r.Some? <==> "username" in options && "password" in options && "self" !in options
    ensures r.Some? ==>
      && r.value.args == []
      && r.value.username == options["username"] && r.value.password == options["password"]
      && r.value.debug == Keyword(options, "debug") && r.value.wrapSsl == Keyword(options, "wrap_ssl")
      && r.value.kwargs.Keys !! Parameters
      && r.value.kwargs.Keys + (options.Keys * Parameters) == options.Keys
      && (forall k :: k in r.value.kwargs ==> r.value.kwargs[k] == options[k])
  {
    if "username" in options && "password" in options && "self" !in options then
      Some(ClientArgs([], options["username"], options["password"],
                      Keyword(options, "debug"), Keyword(options, "wrap_ssl"), options - Parameters))
    else None
  }

  /** What an `SmtpClient` holds after `__init__`. */
  datatype ClientConfig = ClientConfig(
    args: seq<Value>, kwargs: Options, debug: bool, username: Value, password: Value, wrapSsl: bool)

  /** The state `__init__` leaves: `debug` and `wrap_ssl` kept as their truth values (`x or False`). */
  function Configured(a: ClientArgs): (c: ClientConfig)
    ensures c.args == a.args && c.kwargs == a.kwargs && c.username == a.username && c.password == a.password
    ensures c.debug <==> Truthy(a.debug)
    ensures c.wrapSsl <==> Truthy(a.wrapSsl)
  {
    ClientConfig(a.args, a.kwargs, Truthy(a.debug), a.username, a.password, Truthy(a.wrapSsl))
  }

  /** `connect()`: SMTP_SSL when `wrap_ssl`, plain SMTP otherwise, with the stored arguments. */
  function Opening(c: ClientConfig): (call: Call)
    ensures call.Open? && call.ssl == c.wrapSsl && call.args == c.args && call.kwargs == c.kwargs
  {
    Open(c.wrapSsl, c.args, c.kwargs)
  }

  /** `None` -> `[]`, a single value `x` -> `[x]`, a list -> itself. */
  function Normalize(a: Arg<string>): (r: seq<string>)
    ensures a.Absent? ==> r == []
    ensures a.One? ==> r == [a.value]
    ensures a.Many? ==> r == a.items
  {
    match a
    case Absent => []
    case One(x) => [x]
    case Many(xs) => xs
  }

  /** One address: `parseaddr`, the display name as encoded-words, then `formataddr`. */
  function FormatOne(lib: MailLib, mail: string): Option<string> {
    var pair := lib.parseAddr(mail);
    lib.formatAddr((lib.encodeHeader(pair.0), pair.1))
  }

  /** The formatted list, element by element; `None` when some address cannot be formatted. */
  function FormatMails(lib: MailLib, mails: seq<string>): (r: Option<seq<string>>)
    ensures r.Some? <==> forall i :: 0 <= i < |mails| ==> FormatOne(lib, mails[i]).Some?
    ensures r.Some? ==> |r.value| == |mails|
    ensures r.Some? ==> forall i :: 0 <= i < |mails| ==> r.value[i] == FormatOne(lib, mails[i]).value
  {
    if forall i :: 0 <= i < |mails| ==> FormatOne(lib, mails[i]).Some?
    then Some(seq(|mails|, i requires 0 <= i < |mails| => FormatOne(lib, mails[i]).value))
    else None
  }

  /** The four header fields `send_mail` sets, in the order it sets them. */
  function Headers(lib: MailLib, subject: string, me: seq<string>, to: seq<string>, cc: seq<string>): (r: seq<Field>)
    ensures |r| == 4 && r[0].name == "to" && r[1].name == "cc" && r[2].name == "Subject" && r[3].name == "From"
    ensures forall i :: 0 <= i < 4 ==> r[i].value.Plain? && r[i].params == []
    ensures r[0].value.s == Join(to) && r[1].value.s == Join(cc) && r[3].value.s == Join(me)
    ensures r[2].value.s == lib.encodeHeader(subject)
  {
    [ Field("to", Plain(Join(to)), []),
      Field("cc", Plain(Join(cc)), []),
      Field("Subject", Plain(lib.encodeHeader(subject)), []),
      Field("From", Plain(Join(me)), []) ]
  }

  /** The envelope sender: the one formatted sender, else the login name. */
  function EnvelopeSender(me: seq<string>, username: Value): (v: Value)
    ensures |me| == 1 ==> v == Str(me[0])
    ensures |me| != 1 ==> v == username
  {
    if |me| == 1 then Str(me[0]) else username
  }

  /** The requests after the connection is open: debug level, login, sendmail, quit. */
  function Delivery(c: ClientConfig, sender: Value, recipients: seq<string>, text: string): (plan: seq<Call>)
    ensures |plan| == if c.debug then 4 else 3
    ensures plan[0] == SetDebugLevel(1) <==> c.debug
    ensures plan[|plan| - 1] == Quit
  {
    (if c.debug then [SetDebugLevel(1)] else []) +
    [Login(c.username, c.password), Sendmail(sender, recipients, text), Quit]
  }

  /** Login, sendmail and quit after history `g`: the run stops at the first refusal. */
  lemma RunLoginSendQuit(refuses: Refusal, g: seq<Call>, login: Call, send: Call)
    ensures Run(refuses, g, [login, send, Quit]) ==
      if refuses(g, login) then Session([login], false)
      else if refuses(g + [login], send) then Session([login, send], false)
      else Session([login, send, Quit], !refuses(g + [login, send], Quit))
  {
    assert [login, send, Quit][1..] == [send, Quit] && [send, Quit][1..] == [Quit];
    assert g + [login] + [send] == g + [login, send];
    var last := Run(refuses, g + [login, send], [Quit]);
    assert last == Session([Quit], !refuses(g + [login, send], Quit)) by {
      assert [Quit][1..] == [];
      assert Run(refuses, g + [login, send] + [Quit], []) == Session([], true);
    }
  }

  /** Running the delivery plan: it stops at the first request the relay refuses. */
  lemma RunDelivery(c: ClientConfig, refuses: Refusal, h: seq<Call>, sender: Value, recipients: seq<string>, text: string)
    ensures var d := if c.debug then [SetDebugLevel(1)] else [];
      var login, send := Login(c.username, c.password), Sendmail(sender, recipients, text);
      Run(refuses, h, Delivery(c, sender, recipients, text)) ==
        if c.debug && refuses(h, SetDebugLevel(1)) then Session(d, false)
        else if refuses(h + d, login) then Session(d + [login], false)
        else if refuses(h + d + [login], send) then Session(d + [login, send], false)
        else Session(d + [login, send, Quit], !refuses(h + d + [login, send], Quit))
  {
    var login, send := Login(c.username, c.password), Sendmail(sender, recipients, text);
    if c.debug {
      var plan := Delivery(c, sender, recipients, text);
      assert plan[0] == SetDebugLevel(1) && plan[1..] == [login, send, Quit];
      RunLoginSendQuit(refuses, h + [SetDebugLevel(1)], login, send);
    } else {
      assert Delivery(c, sender, recipients, text) == [login, send, Quit];
      assert h + [] == h;
      RunLoginSendQuit(refuses, h, login, send);
    }
  }

  /** The delivery never reports a failure to connect or to format. */
  lemma DeliveryOutcome(c: ClientConfig, refuses: Refusal, h: seq<Call>, sender: Value, recipients: seq<string>, text: string)
    ensures var o := OutcomeOf(Run(refuses, h, Delivery(c, sender, recipients, text)));
      o != Raised(Connecting) && o != Raised(Formatting)
  {
    var plan := Delivery(c, sender, recipients, text);
    var s := Run(refuses, h, plan);
    if !s.completed {
      var last := |s.calls| - 1;
      assert s.calls[last] == plan[last];
      assert !plan[last].Open?;
    }
  }

  /** What one `send_mail` does: its outcome, the requests it makes, the fields it adds to the message. */
  datatype Sent = Sent(outcome: Outcome, calls: seq<Call>, fields: seq<Field>)

  /** `send_mail` once the address lists are formatted: headers, then the delivery after the opening `open`. */
  function Deliveries(c: ClientConfig, lib: MailLib, refuses: Refusal, h: seq<Call>, m: Mime,
                      subject: string, me: seq<string>, to: seq<string>, cc: seq<string>): Sent
  {
    var open := Opening(c);
    var fields := Headers(lib, subject, me, to, cc);
    var text := lib.asString(m.(fields := m.fields + fields));
    var s := Run(refuses, h + [open], Delivery(c, EnvelopeSender(me, c.username), to + cc, text));
    Sent(OutcomeOf(s), [open] + s.calls, fields)
  }

  /** `send_mail` on a client in state `c`, a relay with history `h` and a message `m`. */
  function ClientSend(c: ClientConfig, lib: MailLib, refuses: Refusal, h: seq<Call>, m: Mime,
                      subject: string, me: Arg<string>, to: Arg<string>, cc: Arg<string>): (r: Sent)
    ensures r.calls != [] && r.calls[0] == Opening(c)
    ensures r.fields == [] || |r.fields| == 4
  {
    var me', to', cc' := FormatMails(lib, Normalize(me)), FormatMails(lib, Normalize(to)), FormatMails(lib, Normalize(cc));
    if refuses(h, Opening(c)) then Sent(Raised(Connecting), [Opening(c)], [])
    else if me'.Some? && to'.Some? && cc'.Some? then Deliveries(c, lib, refuses, h, m, subject, me'.value, to'.value, cc'.value)
    else Sent(Raised(Formatting), [Opening(c)], [])
  }

  /** A lone address in any of `me`, `to` and `cc` behaves as a one-element list. */
  lemma ClientSendSingle(c: ClientConfig, lib: MailLib, refuses: Refusal, h: seq<Call>, m: Mime,
                         subject: string, me: Arg<string>, to: Arg<string>, cc: Arg<string>, x: string)
    ensures ClientSend(c, lib, refuses, h, m, subject, One(x), to, cc) == ClientSend(c, lib, refuses, h, m, subject, Many([x]), to, cc)
    ensures ClientSend(c, lib, refuses, h, m, subject, me, One(x), cc) == ClientSend(c, lib, refuses, h, m, subject, me, Many([x]), cc)
    ensures ClientSend(c, lib, refuses, h, m, subject, me, to, One(x)) == ClientSend(c, lib, refuses, h, m, subject, me, to, Many([x]))
  {
  }

  /** Once the connection opens and every address formats, `send_mail` is its delivery run. */
  lemma ClientSendDelivers(c: ClientConfig, lib: MailLib, refuses: Refusal, h: seq<Call>, m: Mime,
                           subject: string, me: Arg<string>, to: Arg<string>, cc: Arg<string>,
                           me': seq<string>, to': seq<string>, cc': seq<string>)
    requires !refuses(h, Opening(c))
    requires FormatMails(lib, Normalize(me)) == Some(me')
    requires FormatMails(lib, Normalize(to)) == Some(to')
    requires FormatMails(lib, Normalize(cc)) == Some(cc')
    ensures var fields := Headers(lib, subject, me', to', cc');
      var text := lib.asString(m.(fields := m.fields + fields));
      var s := Run(refuses, h + [Opening(c)], Delivery(c, EnvelopeSender(me', c.username), to' + cc', text));
      ClientSend(c, lib, refuses, h, m, subject, me, to, cc) == Sent(OutcomeOf(s), [Opening(c)] + s.calls, fields)
  {
  }

  /** Whether every address list of a `send_mail` call formats. */
  predicate AllFormat(lib: MailLib, me: Arg<string>, to: Arg<string>, cc: Arg<string>) {
    FormatMails(lib, Normalize(me)).Some? && FormatMails(lib, Normalize(to)).Some? && FormatMails(lib, Normalize(cc)).Some?
  }

  /**
   * `send_mail` raises while connecting exactly when the opening is refused, and while formatting
   * exactly when the opening succeeded and some address does not format; then it made no request
   * after the opening and added no header.
   */
  lemma ClientSendEarly(c: ClientConfig, lib: MailLib, refuses: Refusal, h: seq<Call>, m: Mime,
                        subject: string, me: Arg<string>, to: Arg<string>, cc: Arg<string>)
    ensures var r := ClientSend(c, lib, refuses, h, m, subject, me, to, cc);
      && r.calls != [] && r.calls[0] == Opening(c)
      && (r.outcome == Raised(Connecting) <==> refuses(h, Opening(c)))
      && (r.outcome == Raised(Formatting) <==> !refuses(h, Opening(c)) && !AllFormat(lib, me, to, cc))
      && (r.outcome == Raised(Formatting) ==> r.calls == [Opening(c)] && r.fields == [])
  {
    if !refuses(h, Opening(c)) && AllFormat(lib, me, to, cc) {
      var me', to', cc' := FormatMails(lib, Normalize(me)).value, FormatMails(lib, Normalize(to)).value,
                           FormatMails(lib, Normalize(cc)).value;
      var fields := Headers(lib, subject, me', to', cc');
      var text := lib.asString(m.(fields := m.fields + fields));
      ClientSendDelivers(c, lib, refuses, h, m, subject, me, to, cc, me', to', cc');
      DeliveryOutcome(c, refuses, h + [Opening(c)], EnvelopeSender(me', c.username), to' + cc', text);
    }
  }

  /**
   * Unless an address failed to format, every request `send_mail` made returned except a failing
   * last one, and the step it reports is the step of that last request.
   */
  lemma ClientSendStops(c: ClientConfig, lib: MailLib, refuses: Refusal, h: seq<Call>, m: Mime,
                        subject: string, me: Arg<string>, to: Arg<string>, cc: Arg<string>)
    ensures var r := ClientSend(c, lib, refuses, h, m, subject, me, to, cc);
      && (r.outcome != Raised(Formatting) ==> StopsAtRefusal(refuses, h, Session(r.calls, r.outcome == Returned)))
      && (r.outcome.Raised? && r.outcome.at != Formatting ==> StepOf(r.calls[|r.calls| - 1]) == r.outcome.at)
  {
    var open := Opening(c);
    if refuses(h, open) {
      assert h + [open][..0] == h;
    } else if AllFormat(lib, me, to, cc) {
      var me', to', cc' := FormatMails(lib, Normalize(me)).value, FormatMails(lib, Normalize(to)).value,
                           FormatMails(lib, Normalize(cc)).value;
      var fields := Headers(lib, subject, me', to', cc');
      var text := lib.asString(m.(fields := m.fields + fields));
      var plan := Delivery(c, EnvelopeSender(me', c.username), to' + cc', text);
      var s := Run(refuses, h + [open], plan);
      ClientSendDelivers(c, lib, refuses, h, m, subject, me, to, cc, me', to', cc');
      assert ClientSend(c, lib, refuses, h, m, subject, me, to, cc) == Sent(OutcomeOf(s), [open] + s.calls, fields);
      RunAfter(refuses, h, open, plan);
    }
  }

  /** A relay that refuses nothing receives the whole plan, and `send_mail` returns. */
  lemma ClientSendAccepted(c: ClientConfig, lib: MailLib, refuses: Refusal, h: seq<Call>, m: Mime,
                           subject: string, me: Arg<string>, to: Arg<string>, cc: Arg<string>,
                           me': seq<string>, to': seq<string>, cc': seq<string>)
    requires forall g, call :: !refuses(g, call)
    requires FormatMails(lib, Normalize(me)) == Some(me')
    requires FormatMails(lib, Normalize(to)) == Some(to')
    requires FormatMails(lib, Normalize(cc)) == Some(cc')
    ensures var fields := Headers(lib, subject, me', to', cc');
      var text := lib.asString(m.(fields := m.fields + fields));
      ClientSend(c, lib, refuses, h, m, subject, me, to, cc)
        == Sent(Returned, [Opening(c)] + Delivery(c, EnvelopeSender(me', c.username), to' + cc', text), fields)
  {
    var fields := Headers(lib, subject, me', to', cc');
    var text := lib.asString(m.(fields := m.fields + fields));
    ClientSendDelivers(c, lib, refuses, h, m, subject, me, to, cc, me', to', cc');
    RunAccepting(refuses, h + [Opening(c)], Delivery(c, EnvelopeSender(me', c.username), to' + cc', text));
  }

  /** A `send_mail` that returns made every request of its plan, to the `to` and `cc` addresses together. */
  lemma ClientSendReturned(c: ClientConfig, lib: MailLib, refuses: Refusal, h: seq<Call>, m: Mime,
                           subject: string, me: Arg<string>, to: Arg<string>, cc: Arg<string>)
    requires ClientSend(c, lib, refuses, h, m, subject, me, to, cc).outcome == Returned
    ensures AllFormat(lib, me, to, cc)
    ensures var me', to', cc' := FormatMails(lib, Normalize(me)).value, FormatMails(lib, Normalize(to)).value,
                                 FormatMails(lib, Normalize(cc)).value;
      var fields := Headers(lib, subject, me', to', cc');
      var text := lib.asString(m.(fields := m.fields + fields));
      ClientSend(c, lib, refuses, h, m, subject, me, to, cc)
        == Sent(Returned, [Opening(c)] + Delivery(c, EnvelopeSender(me', c.username), to' + cc', text), fields)
  {
    var me', to', cc' := FormatMails(lib, Normalize(me)).value, FormatMails(lib, Normalize(to)).value,
                         FormatMails(lib, Normalize(cc)).value;
    ClientSendDelivers(c, lib, refuses, h, m, subject, me, to, cc, me', to', cc');
  }

  /** The part that carries the HTML text. */
  function HtmlPart(html: string): Mime {
    Mime(Text("html", "utf-8", html), [], [])
  }

  /**
   * A file attachment: a `MIMEText` part with subtype `base64`, to which the code adds a
   * Content-Type field `application/octet-stream` and a disposition carrying the file name
   * (RFC 2231). The `text/base64` Content-Type the constructor sets itself comes first and
   * is not one of the fields modelled here.
   */
  function FilePart(file: (string, seq<byte>)): Mime {
    Mime(BinaryText("base64", "utf-8", file.1),
         [ Field("Content-Type", Plain("application/octet-stream"), []),
           Field("Content-Disposition", Plain("attachment"), [Param("filename", Rfc2231("utf-8", "", file.0))]) ],
         [])
  }

  /** An inline image: a PNG part whose Content-ID is the given name. */
  function ImagePart(image: (string, seq<byte>)): Mime {
    Mime(Image("png", image.1), [Field("Content-ID", Plain(image.0), [])], [])
  }

  function FileParts(files: seq<(string, seq<byte>)>): seq<Mime> {
    seq(|files|, i requires 0 <= i < |files| => FilePart(files[i]))
  }

  function ImageParts(images: seq<(string, seq<byte>)>): seq<Mime> {
    seq(|images|, i requires 0 <= i < |images| => ImagePart(images[i]))
  }

  lemma FilePartsGrow(fs: seq<(string, seq<byte>)>, k: nat)
    requires k < |fs|
    ensures FileParts(fs[..k + 1]) == FileParts(fs[..k]) + [FilePart(fs[k])]
  {
    assert fs[..k + 1][k] == fs[k];
  }

  lemma ImagePartsGrow(ims: seq<(string, seq<byte>)>, k: nat)
    requires k < |ims|
    ensures ImageParts(ims[..k + 1]) == ImageParts(ims[..k]) + [ImagePart(ims[k])]
  {
    assert ims[..k + 1][k] == ims[k];
  }

  /** The multipart `send_html_mail` builds; absent lists count as empty. */
  function HtmlMessage(html: string, files: Option<seq<(string, seq<byte>)>>,
                       images: Option<seq<(string, seq<byte>)>>): Mime
  {
    Mime(Multipart, [], [HtmlPart(html)] + FileParts(files.GetOr([])) + ImageParts(images.GetOr([])))
  }

  /**
   * The HTML part comes first, then one part per file and one per image, each in input order.
   * A file part gets an added Content-Type field `application/octet-stream` and an attachment
   * disposition named after the file (RFC 2231 form); an image
   * part is a PNG whose Content-ID is the image's name.
   */
  lemma HtmlMessageShape(html: string, files: Option<seq<(string, seq<byte>)>>,
                         images: Option<seq<(string, seq<byte>)>>)
    ensures var m, fs, ims := HtmlMessage(html, files, images), files.GetOr([]), images.GetOr([]);
      && m.body == Multipart && m.fields == []
      && |m.parts| == 1 + |fs| + |ims|
      && m.parts[0] == Mime(Text("html", "utf-8", html), [], [])
      && (forall i :: 0 <= i < |fs| ==>
            && m.parts[1 + i].body == BinaryText("base64", "utf-8", fs[i].1)
            && m.parts[1 + i].fields ==
                 [ Field("Content-Type", Plain("application/octet-stream"), []),
                   Field("Content-Disposition", Plain("attachment"), [Param("filename", Rfc2231("utf-8", "", fs[i].0))]) ])
      && (forall j :: 0 <= j < |ims| ==>
            && m.parts[1 + |fs| + j].body == Image("png", ims[j].1)
            && m.parts[1 + |fs| + j].fields == [Field("Content-ID", Plain(ims[j].0), [])])
  {
    var fs, ims := files.GetOr([]), images.GetOr([]);
    var ps := [HtmlPart(html)] + FileParts(fs) + ImageParts(ims);
    assert HtmlMessage(html, files, images).parts == ps;
    forall i | 0 <= i < |fs| ensures ps[1 + i] == FilePart(fs[i]) {
      assert ps[1 + i] == FileParts(fs)[i];
    }
    forall j | 0 <= j < |ims| ensures ps[1 + |fs| + j] == ImagePart(ims[j]) {
      assert ps[1 + |fs| + j] == ImageParts(ims)[j];
    }
  }

  class SmtpClient {
    const args: seq<Value>
    const kwargs: Options
    const debug: bool
    const username: Value
    const password: Value
    const wrapSsl: bool

    function Config(): ClientConfig {
      ClientConfig(args, kwargs, debug, username, password, wrapSsl)
    }

    /** `__init__(*args, username, password, debug, wrap_ssl, **kwargs)`. */
    constructor (a: ClientArgs)
      ensures Config() == Configured(a)
    {
      args := a.args;
      kwargs := a.kwargs;
      debug := Truthy(a.debug);
      username := a.username;
      password := a.password;
      wrapSsl := Truthy(a.wrapSsl);
    }

    /** `connect()`: opens a new connection of the class `wrap_ssl` selects. */
    method Connect(net: Network) returns (ok: bool)
      modifies net
      ensures net.trace == old(net.trace) + [Opening(Config())]
      ensures ok == !net.refuses(old(net.trace), Opening(Config()))
    {
      ok := net.Request(Open(wrapSsl, args, kwargs));
    }

    /** `fmt_mails(mails)`: formats each address in turn; `None` when one of them raises. */
    static method FmtMails(lib: MailLib, mails: seq<string>) returns (r: Option<seq<string>>)
      ensures r == FormatMails(lib, mails)
    {
      var result: seq<string> := [];
      for k := 0 to |mails|
        invariant |result| == k
        invariant forall i :: 0 <= i < k ==> FormatOne(lib, mails[i]) == Some(result[i])
      {
        var pair := lib.parseAddr(mails[k]);
        var formatted := lib.formatAddr((lib.encodeHeader(pair.0), pair.1));
        if formatted.None? {
          return None;
        }
        result := result + [formatted.value];
      }
      assert FormatMails(lib, mails).Some?;
      assert result == FormatMails(lib, mails).value;
      return Some(result);
    }

    /** One of `me`, `to`, `cc` in `send_mail`: normalised to a list, then formatted unless empty. */
    static method FmtArg(lib: MailLib, a: Arg<string>) returns (r: Option<seq<string>>)
      ensures r == FormatMails(lib, Normalize(a))
    {
      var mails := Normalize(a);
      if mails == [] {
        return Some(mails);
      }
      r := FmtMails(lib, mails);
    }

    /** `send_mail(subject, message, me, to, cc)`. */
    method SendMail(net: Network, lib: MailLib, message: Message, subject: string,
                    me: Arg<string>, to: Arg<string>, cc: Arg<string>) returns (outcome: Outcome)
      modifies net, message
      ensures var s := ClientSend(Config(), lib, net.refuses, old(net.trace), old(message.Value()), subject, me, to, cc);
        && outcome == s.outcome
        && net.trace == old(net.trace) + s.calls
        && message.fields == old(message.fields) + s.fields
      ensures message.parts == old(message.parts)
    {
      ghost var m0 := message.Value();
      ghost var h0 := net.trace;
      var connected := Connect(net);
      if !connected {
        return Raised(Connecting);
      }
      var subjectText := lib.encodeHeader(subject);
      var mine := FmtArg(lib, me);
      if mine.None? {
        return Raised(Formatting);
      }
      var tos := FmtArg(lib, to);
      if tos.None? {
        return Raised(Formatting);
      }
      var ccs := FmtArg(lib, cc);
      if ccs.None? {
        return Raised(Formatting);
      }
      assert ClientSend(Config(), lib, net.refuses, h0, m0, subject, me, to, cc)
        == Deliveries(Config(), lib, net.refuses, h0, m0, subject, mine.value, tos.value, ccs.value);
      outcome := Dispatch(h0, net, lib, message, subject, subjectText, mine.value, tos.value, ccs.value);
    }

    /** `send_mail` once every address list is formatted: the headers, then the delivery. */
    method Dispatch(ghost h: seq<Call>, net: Network, lib: MailLib, message: Message, ghost subject: string,
                    subjectText: string, me: seq<string>, to: seq<string>, cc: seq<string>) returns (outcome: Outcome)
      requires net.trace == h + [Opening(Config())]
      requires subjectText == lib.encodeHeader(subject)
      modifies net, message
      ensures var s := Deliveries(Config(), lib, net.refuses, h, old(message.Value()), subject, me, to, cc);
        && outcome == s.outcome
        && net.trace == h + s.calls
        && message.fields == old(message.fields) + s.fields
      ensures message.parts == old(message.parts)
    {
      ghost var m0 := message.Value();
      ghost var fields := Headers(lib, subject, me, to, cc);
      AddHeaders(lib, message, subject, subjectText, me, to, cc);
      assert message.Value() == m0.(fields := m0.fields + fields);
      var sender := EnvelopeSender(me, username);
      var text := lib.asString(message.Value());
      ghost var run := Run(net.refuses, net.trace, Delivery(Config(), sender, to + cc, text));
      ghost var sent := Deliveries(Config(), lib, net.refuses, h, m0, subject, me, to, cc);
      assert sent == Sent(OutcomeOf(run), [Opening(Config())] + run.calls, fields);
      outcome := Deliver(net, sender, to + cc, text);
      assert net.trace == h + ([Opening(Config())] + run.calls);
    }

    /** The four header assignments of `send_mail`, in order. */
    static method AddHeaders(lib: MailLib, message: Message, ghost subject: string, subjectText: string,
                             me: seq<string>, to: seq<string>, cc: seq<string>)
      requires subjectText == lib.encodeHeader(subject)
      modifies message
      ensures message.fields == old(message.fields) + Headers(lib, subject, me, to, cc)
      ensures message.parts == old(message.parts)
    {
      message.Set("to", Plain(Join(to)));
      message.Set("cc", Plain(Join(cc)));
      message.Set("Subject", Plain(subjectText));
      message.Set("From", Plain(Join(me)));
    }

    /** The end of `send_mail`: debug level, login, sendmail and quit, each raising when refused. */
    method Deliver(net: Network, sender: Value, recipients: seq<string>, text: string) returns (outcome: Outcome)
      modifies net
      ensures var s := Run(net.refuses, old(net.trace), Delivery(Config(), sender, recipients, text));
        outcome == OutcomeOf(s) && net.trace == old(net.trace) + s.calls
    {
      ghost var h := net.trace;
      var tail := [Login(username, password), Sendmail(sender, recipients, text), Quit];
      if debug {
        assert Delivery(Config(), sender, recipients, text) == [SetDebugLevel(1)] + tail;
        RunCons(net.refuses, h, SetDebugLevel(1), tail);
        var ok := net.Request(SetDebugLevel(1));
        if !ok {
          return Raised(SettingDebug);
        }
        ghost var rest := Run(net.refuses, net.trace, tail);
        outcome := LoginSendQuit(net, sender, recipients, text);
        assert net.trace == h + ([SetDebugLevel(1)] + rest.calls);
      } else {
        assert Delivery(Config(), sender, recipients, text) == tail;
        outcome := LoginSendQuit(net, sender, recipients, text);
      }
    }

    /** Login, sendmail and quit, stopping at the first that raises. */
    method LoginSendQuit(net: Network, sender: Value, recipients: seq<string>, text: string) returns (outcome: Outcome)
      modifies net
      ensures var s := Run(net.refuses, old(net.trace), [Login(username, password), Sendmail(sender, recipients, text), Quit]);
        outcome == OutcomeOf(s) && net.trace == old(net.trace) + s.calls
    {
      ghost var h := net.trace;
      var login, send := Login(username, password), Sendmail(sender, recipients, text);
      RunLoginSendQuit(net.refuses, h, login, send);
      var ok := net.Request(login);
      if !ok {
        return Raised(LoggingIn);
      }
      ok := net.Request(send);
      if !ok {
        return Raised(Sending);
      }
      assert net.trace == h + [login, send];
      ok := net.Request(Quit);
      if !ok {
        return Raised(Quitting);
      }
      return Returned;
    }

    /** The multipart `send_html_mail` assembles before sending it. */
    static method BuildHtml(html: string, files: Option<seq<(string, seq<byte>)>>,
                            images: Option<seq<(string, seq<byte>)>>) returns (multipart: Message)
      ensures fresh(multipart) && multipart.Value() == HtmlMessage(html, files, images)
    {
      multipart := new Message(Multipart);
      var body := new Message(Text("html", "utf-8", html));
      multipart.Attach(body.Value());
      var fs := files.GetOr([]);
      for k := 0 to |fs|
        invariant fresh(multipart) && multipart.body == Multipart && multipart.fields == []
        invariant multipart.parts == [HtmlPart(html)] + FileParts(fs[..k])
      {
        var f := NewFilePart(fs[k]);
        multipart.Attach(f.Value());
        FilePartsGrow(fs, k);
      }
      var ims := images.GetOr([]);
      for k := 0 to |ims|
        invariant fresh(multipart) && multipart.body == Multipart && multipart.fields == []
        invariant multipart.parts == [HtmlPart(html)] + FileParts(fs) + ImageParts(ims[..k])
      {
        var i := NewImagePart(ims[k]);
        multipart.Attach(i.Value());
        ImagePartsGrow(ims, k);
      }
      assert fs[..|fs|] == fs && ims[..|ims|] == ims;
    }

    /** One file attachment of `send_html_mail`. */
    static method NewFilePart(file: (string, seq<byte>)) returns (f: Message)
      ensures fresh(f) && f.Value() == FilePart(file)
    {
      var (name, data) := file;
      f := new Message(BinaryText("base64", "utf-8", data));
      f.Set("Content-Type", Plain("application/octet-stream"));
      f.AddHeader("Content-Disposition", Plain("attachment"), [Param("filename", Rfc2231("utf-8", "", name))]);
    }

    /** One inline image of `send_html_mail`. */
    static method NewImagePart(image: (string, seq<byte>)) returns (i: Message)
      ensures fresh(i) && i.Value() == ImagePart(image)
    {
      var (name, data) := image;
      i := new Message(Image("png", data));
      i.AddHeader("Content-ID", Plain(name), []);
    }

    /** `send_text_mail`: sends a UTF-8 plain-text message. */
    method SendTextMail(net: Network, lib: MailLib, subject: string, text: string,
                        me: Arg<string>, to: Arg<string>, cc: Arg<string>) returns (outcome: Outcome)
      modifies net
      ensures var s := ClientSend(Config(), lib, net.refuses, old(net.trace),
                                  Mime(Text("plain", "utf-8", text), [], []), subject, me, to, cc);
        outcome == s.outcome && net.trace == old(net.trace) + s.calls
    {
      var message := new Message(Text("plain", "utf-8", text));
      outcome := SendMail(net, lib, message, subject, me, to, cc);
    }

    /** `send_html_mail`: the HTML part, then each file, then each image, in one multipart. */
    method SendHtmlMail(net: Network, lib: MailLib, subject: string, html: string,
                        files: Option<seq<(string, seq<byte>)>>, images: Option<seq<(string, seq<byte>)>>,
                        me: Arg<string>, to: Arg<string>, cc: Arg<string>) returns (outcome: Outcome)
      modifies net
      ensures var s := ClientSend(Config(), lib, net.refuses, old(net.trace),
                                  HtmlMessage(html, files, images), subject, me, to, cc);
        outcome == s.outcome && net.trace == old(net.trace) + s.calls
    {
      var multipart := BuildHtml(html, files, images);
      outcome := SendMail(net, lib, multipart, subject, me, to, cc);
    }
  }
}

/**
 * `Connection` (service_smtp/core/connect.py): one connection opened when the object
 * is built, reused by every `send_mail`, and closed by `release`. `send_mail` never
 * raises: it reports `(True, '')` or `(False, <traceback>)`.
 */
module Connect {
  import opened Wrappers
  import opened Values
  import opened Transport
  import opened Mime

  /** The arguments `Connection.__init__` binds before it builds the server object. */
  datatype ConnArgs = ConnArgs(
    args: seq<Value>, username: Value, password: Value, debug: Value, warpSsl: Value, kwargs: Options)

  /** What a `Connection` holds besides its server. */
  datatype ConnConfig = ConnConfig(debug: bool, username: Value, password: Value, warpSsl: bool)

  /** `(send_result, send_errors)`: the traceback text is represented by the step that raised. */
  datatype Report = Report(sent: bool, traceback: Option<Step>)

  function Failed(at: Step): Report {
    Report(false, Some(at))
  }

  /**
   * An address argument of `Connection.send_mail`: a list of `(name, address)` pairs goes
   * through `formataddr` one by one, a single value is kept as it is, `None` is the empty list.
   */
  function AddressList(lib: MailLib, a: Arg<(string, string)>): (r: Option<seq<string>>)
    ensures a.Absent? ==> r == Some([])
    ensures a.One? ==> r == Some([a.value])
    ensures a.Many? ==> (r.Some? <==> forall i :: 0 <= i < |a.items| ==> lib.formatAddr(a.items[i]).Some?)
    ensures a.Many? && r.Some? ==>
      |r.value| == |a.items| && forall i :: 0 <= i < |a.items| ==> r.value[i] == lib.formatAddr(a.items[i]).value
  {
    match a
    case Absent => Some([])
    case One(x) => Some([x])
    case Many(items) =>
      if forall i :: 0 <= i < |items| ==> lib.formatAddr(items[i]).Some?
      then Some(seq(|items|, i requires 0 <= i < |items| => lib.formatAddr(items[i]).value))
      else None
  }

  /**
   * Unlike `SmtpClient`, a lone value is kept as it is, while the same value as a one-item
   * list goes through `formataddr`.
   */
  lemma AddressListSingle(lib: MailLib, name: string, addr: string, x: string)
    ensures AddressList(lib, One(x)) == Some([x])
    ensures AddressList(lib, Many([(name, addr)])) ==
      if lib.formatAddr((name, addr)).Some? then Some([lib.formatAddr((name, addr)).value]) else None
  {
    var items := [(name, addr)];
    assert items[0] == (name, addr);
    var r := AddressList(lib, Many(items));
    if r.Some? {
      assert r.value == [lib.formatAddr(items[0]).value];
    }
  }

  /** The result of one `send_mail`: its report, the requests it made, the fields it added. */
  datatype Posted = Posted(report: Report, calls: seq<Call>, fields: seq<Field>)

  /** The three fields set before the debug level: `to`, `cc` and `Subject`, each a `Header`. */
  function FirstFields(subject: string, to: seq<string>, cc: seq<string>): (r: seq<Field>)
    ensures |r| == 3 && r[0].name == "to" && r[1].name == "cc" && r[2].name == "Subject"
    ensures forall i :: 0 <= i < 3 ==> r[i].value.Encoded? && r[i].params == []
    ensures r[0].value.s == Join(to) && r[1].value.s == Join(cc) && r[2].value.s == subject
  {
    [ Field("to", Encoded(Join(to)), []),
      Field("cc", Encoded(Join(cc)), []),
      Field("Subject", Encoded(subject), []) ]
  }

  /** The `From` field, a `Header` of all senders joined, though only the first sends. */
  function FromField(me: seq<string>): (f: Field)
    ensures f.name == "From" && f.value == Encoded(Join(me)) && f.params == []
  {
    Field("From", Encoded(Join(me)), [])
  }

  /**
   * `send_mail` once the address lists are built, on a server with history `h`. A mail is
   * sent exactly when the server accepts the debug level, the login and the sendmail request
   * and there is a sender; the envelope goes from the first sender to the `to` addresses
   * only, while `cc` is only named in the header.
   */
  function Posting(c: ConnConfig, lib: MailLib, refuses: Refusal, h: seq<Call>, m: Mime,
                   subject: string, me: seq<string>, to: seq<string>, cc: seq<string>): (p: Posted)
    ensures p.report.sent <==> p.report.traceback.None?
    ensures var d := if c.debug then [SetDebugLevel(1)] else [];
      var login := Login(c.username, c.password);
      var fields := FirstFields(subject, to, cc) + [FromField(me)];
      p.report.sent <==>
        && !(c.debug && refuses(h, SetDebugLevel(1)))
        && !refuses(h + d, login)
        && me != []
        && !refuses(h + d + [login], Sendmail(Str(me[0]), to, lib.asString(m.(fields := m.fields + fields))))
    ensures c.debug && refuses(h, SetDebugLevel(1)) ==> p.fields == FirstFields(subject, to, cc)
    ensures !(c.debug && refuses(h, SetDebugLevel(1))) ==> p.fields == FirstFields(subject, to, cc) + [FromField(me)]
  {
    var first := FirstFields(subject, to, cc);
    var fields := first + [FromField(me)];
    var d := if c.debug then [SetDebugLevel(1)] else [];
    var login := Login(c.username, c.password);
    if c.debug && refuses(h, SetDebugLevel(1)) then Posted(Failed(SettingDebug), d, first)
    else if refuses(h + d, login) then Posted(Failed(LoggingIn), d + [login], fields)
    else if me == [] then Posted(Failed(MissingSender), d + [login], fields)
    else
      var send := Sendmail(Str(me[0]), to, lib.asString(m.(fields := m.fields + fields)));
      var report := if refuses(h + d + [login], send) then Failed(Sending) else Report(true, None);
      Posted(report, d + [login, send], fields)
  }

  /**
   * `send_mail` on a connection in state `c` whose server has history `h`, with message `m`.
   * The report is `(True, '')` exactly when nothing raised; an address that does not format
   * stops it before any header or request.
   */
  function ConnSend(c: ConnConfig, lib: MailLib, refuses: Refusal, h: seq<Call>, m: Mime, subject: string,
                    me: Arg<(string, string)>, to: Arg<(string, string)>, cc: Arg<(string, string)>): (p: Posted)
    ensures p.report.sent <==> p.report.traceback.None?
    ensures p.report.traceback == Some(Formatting) <==>
      (AddressList(lib, me).None? || AddressList(lib, to).None? || AddressList(lib, cc).None?)
    ensures p.report.traceback == Some(Formatting) ==> p.calls == [] && p.fields == []
    ensures AddressList(lib, me).Some? && AddressList(lib, to).Some? && AddressList(lib, cc).Some? ==>
      p == Posting(c, lib, refuses, h, m, subject,
                   AddressList(lib, me).value, AddressList(lib, to).value, AddressList(lib, cc).value)
  {
    var me', to', cc' := AddressList(lib, me), AddressList(lib, to), AddressList(lib, cc);
    if me'.Some? && to'.Some? && cc'.Some? then Posting(c, lib, refuses, h, m, subject, me'.value, to'.value, cc'.value)
    else Posted(Failed(Formatting), [], [])
  }

  /** Whatever happens, the requests are the debug level (if any), the login and the sendmail, in order. */
  lemma PostingCalls(c: ConnConfig, lib: MailLib, refuses: Refusal, h: seq<Call>, m: Mime,
                     subject: string, me: seq<string>, to: seq<string>, cc: seq<string>)
    ensures var p := Posting(c, lib, refuses, h, m, subject, me, to, cc);
      var fields := FirstFields(subject, to, cc) + [FromField(me)];
      var d := if c.debug then [SetDebugLevel(1)] else [];
      var plan := d + [Login(c.username, c.password)] +
        (if me == [] then [] else [Sendmail(Str(me[0]), to, lib.asString(m.(fields := m.fields + fields)))]);
      && p.calls <= plan
      && (p.report.sent ==> p.calls == plan && me != [])
      && (p.report.traceback == Some(MissingSender) ==> p.calls == plan && me == [])
      && (p.report.traceback != Some(MissingSender) ==> StopsAtRefusal(refuses, h, Session(p.calls, p.report.sent)))
  {
    var d := if c.debug then [SetDebugLevel(1)] else [];
    var login := Login(c.username, c.password);
    var p := Posting(c, lib, refuses, h, m, subject, me, to, cc);
    if p.report.traceback != Some(MissingSender) {
      PostingStops(c, lib, refuses, h, m, subject, me, to, cc);
    }
  }

  /** Apart from a missing sender, the requests of `Posting` stop at the first refusal. */
  lemma PostingStops(c: ConnConfig, lib: MailLib, refuses: Refusal, h: seq<Call>, m: Mime,
                     subject: string, me: seq<string>, to: seq<string>, cc: seq<string>)
    requires Posting(c, lib, refuses, h, m, subject, me, to, cc).report.traceback != Some(MissingSender)
    ensures var p := Posting(c, lib, refuses, h, m, subject, me, to, cc);
      StopsAtRefusal(refuses, h, Session(p.calls, p.report.sent))
  {
    var p := Posting(c, lib, refuses, h, m, subject, me, to, cc);
    var debug := SetDebugLevel(1);
    var d := if c.debug then [debug] else [];
    var login := Login(c.username, c.password);
    if c.debug && refuses(h, debug) {
      StopsAtRefusalOne(refuses, h, debug);
      return;
    }
    var after: Session;
    if refuses(h + d, login) {
      StopsAtRefusalOne(refuses, h + d, login);
      after := Session([login], false);
    } else {
      var fields := FirstFields(subject, to, cc) + [FromField(me)];
      var send := Sendmail(Str(me[0]), to, lib.asString(m.(fields := m.fields + fields)));
      StopsAtRefusalOne(refuses, h + d + [login], send);
      StopsAtRefusalCons(refuses, h + d, login, Session([send], !refuses(h + d + [login], send)));
      after := Session([login, send], !refuses(h + d + [login], send));
      assert [login] + [send] == [login, send];
      assert StopsAtRefusal(refuses, h + d, after);
    }
    assert p.calls == d + after.calls && p.report.sent == after.completed;
    assert StopsAtRefusal(refuses, h + d, after);
    if c.debug {
      assert h + d == h + [debug];
      StopsAtRefusalCons(refuses, h, debug, after);
    } else {
      assert h + d == h && d + after.calls == after.calls;
    }
  }

  /** The server connection `Connection` keeps. */
  class Connection {
    const debug: bool
    const username: Value
    const password: Value
    const warpSsl: bool
    const server: Network

    function Config(): ConnConfig {
      ConnConfig(debug, username, password, warpSsl)
    }

    /** `__init__` once the server object exists; `debug` and `warp_ssl` kept as truth values. */
    constructor (a: ConnArgs, server: Network)
      ensures Config() == ConnConfig(Truthy(a.debug), a.username, a.password, Truthy(a.warpSsl))
      ensures this.server == server
    {
      debug := Truthy(a.debug);
      username := a.username;
      password := a.password;
      warpSsl := Truthy(a.warpSsl);
      this.server := server;
    }

    /**
     * `Connection(*args, username=…, password=…, debug=…, warp_ssl=…, **kwargs)`: the server object connects when it is built, so a refused opening
     * makes the constructor raise and no connection exists.
     */
    static method Create(net: Network, a: ConnArgs) returns (r: Option<Connection>)
      modifies net
      ensures net.trace == old(net.trace) + [Open(Truthy(a.warpSsl), a.args, a.kwargs)]
      ensures r.Some? <==> !net.refuses(old(net.trace), Open(Truthy(a.warpSsl), a.args, a.kwargs))
      ensures r.Some? ==>
        && fresh(r.value) && r.value.server == net
        && r.value.Config() == ConnConfig(Truthy(a.debug), a.username, a.password, Truthy(a.warpSsl))
    {
      var ok := net.Request(Open(Truthy(a.warpSsl), a.args, a.kwargs));
      if !ok {
        return None;
      }
      var conn := new Connection(a, net);
      return Some(conn);
    }

    /** `release()`: the server's `__exit__`, which raises if the server rejects it. */
    method Release() returns (outcome: Outcome)
      modifies server
      ensures server.trace == old(server.trace) + [Exit]
      ensures outcome == if server.refuses(old(server.trace), Exit) then Raised(Releasing) else Returned
    {
      var ok := server.Request(Exit);
      outcome := if ok then Returned else Raised(Releasing);
    }

    /** `send_mail(subject, message, me, to, cc)`: every exception becomes a failed report. */
    method SendMail(lib: MailLib, message: Message, subject: string,
                    me: Arg<(string, string)>, to: Arg<(string, string)>, cc: Arg<(string, string)>)
      returns (report: Report)
      modifies server, message
      ensures var p := ConnSend(Config(), lib, server.refuses, old(server.trace), old(message.Value()), subject, me, to, cc);
        && report == p.report
        && server.trace == old(server.trace) + p.calls
        && message.fields == old(message.fields) + p.fields
      ensures message.parts == old(message.parts)
    {
      var mine := AddressList(lib, me);
      var tos := AddressList(lib, to);
      var ccs := AddressList(lib, cc);
      if mine.None? || tos.None? || ccs.None? {
        return Failed(Formatting);
      }
      report := Post(lib, message, subject, mine.value, tos.value, ccs.value);
    }

    /** The body of the `try` in `send_mail` after the address lists are built. */
    method Post(lib: MailLib, message: Message, subject: string, me: seq<string>, to: seq<string>, cc: seq<string>)
      returns (report: Report)
      modifies server, message
      ensures var p := Posting(Config(), lib, server.refuses, old(server.trace), old(message.Value()), subject, me, to, cc);
        && report == p.report
        && server.trace == old(server.trace) + p.calls
        && message.fields == old(message.fields) + p.fields
      ensures message.parts == old(message.parts)
    {
      ghost var h := server.trace;
      ghost var m0 := message.Value();
      ghost var post := Posting(Config(), lib, server.refuses, h, m0, subject, me, to, cc);
      ghost var d := if debug then [SetDebugLevel(1)] else [];
      ghost var first := FirstFields(subject, to, cc);
      message.Set("to", Encoded(Join(to)));
      message.Set("cc", Encoded(Join(cc)));
      message.Set("Subject", Encoded(subject));
      assert message.fields == m0.fields + first;
      if debug {
        var ok := server.Request(SetDebugLevel(1));
        if !ok {
          assert post == Posted(Failed(SettingDebug), d, first);
          return Failed(SettingDebug);
        }
      }
      assert server.trace == h + d;
      report := PostFrom(h, m0, lib, message, subject, me, to, cc);
    }

    /** `send_mail` after the debug level: the From header, the login and the sendmail. */
    method PostFrom(ghost h: seq<Call>, ghost m0: Mime, lib: MailLib, message: Message, subject: string,
                    me: seq<string>, to: seq<string>, cc: seq<string>) returns (report: Report)
      requires !(debug && server.refuses(h, SetDebugLevel(1)))
      requires server.trace == h + (if debug then [SetDebugLevel(1)] else [])
      requires message.Value() == m0.(fields := m0.fields + FirstFields(subject, to, cc))
      modifies server, message
      ensures var p := Posting(Config(), lib, server.refuses, h, m0, subject, me, to, cc);
        && report == p.report
        && server.trace == h + p.calls
        && message.fields == m0.fields + p.fields
      ensures message.parts == old(message.parts)
    {
      ghost var post := Posting(Config(), lib, server.refuses, h, m0, subject, me, to, cc);
      ghost var d := if debug then [SetDebugLevel(1)] else [];
      ghost var fields := FirstFields(subject, to, cc) + [FromField(me)];
      ghost var login := Login(username, password);
      message.Set("From", Encoded(Join(me)));
      assert message.fields == m0.fields + fields;
      var ok := server.Request(Login(username, password));
      if !ok {
        assert post == Posted(Failed(LoggingIn), d + [login], fields);
        return Failed(LoggingIn);
      }
      if me == [] {
        assert post == Posted(Failed(MissingSender), d + [login], fields);
        return Failed(MissingSender);
      }
      assert server.trace == h + d + [login];
      assert message.Value() == m0.(fields := m0.fields + fields);
      ghost var send := Sendmail(Str(me[0]), to, lib.asString(message.Value()));
      ok := server.Request(Sendmail(Str(me[0]), to, lib.asString(message.Value())));
      assert server.trace == h + (d + [login, send]);
      if !ok {
        assert post == Posted(Failed(Sending), d + [login, send], fields);
        return Failed(Sending);
      }
      assert post == Posted(Report(true, None), d + [login, send], fields);
      return Report(true, None);
    }

    /** `send_text_mail`: a UTF-8 plain-text message through `send_mail`. */
    method SendTextMail(lib: MailLib, subject: string, text: string,
                        me: Arg<(string, string)>, to: Arg<(string, string)>, cc: Arg<(string, string)>)
      returns (report: Report)
      modifies server
      ensures var p := ConnSend(Config(), lib, server.refuses, old(server.trace),
                                Mime(Text("plain", "utf-8", text), [], []), subject, me, to, cc);
        report == p.report && server.trace == old(server.trace) + p.calls
    {
      var message := new Message(Text("plain", "utf-8", text));
      report := SendMail(lib, message, subject, me, to, cc);
    }
  }
}

/**
 * The SMTP relay, seen only through the requests the mail code makes of `smtplib`:
 * every request is appended to a trace, and the relay may refuse any of them (the
 * `smtplib` call raises). Sockets, TLS and the SMTP dialogue itself are not modelled.
 */
module Transport {
  import opened Values

  /** One request to `smtplib`. */
  datatype Call =
    | Open(ssl: bool, args: seq<Value>, kwargs: Options)             // SMTP_SSL(...) or SMTP(...)
    | SetDebugLevel(level: int)                                      // set_debuglevel(level)
    | Login(user: Value, password: Value)                            // login(user, password)
    | Sendmail(sender: Value, recipients: seq<string>, text: string)  // sendmail(from, to, msg)
    | Quit                                                           // quit()
    | Exit                                                           // __exit__()

  /** Which request the relay refuses, given the requests made before it. */
  type Refusal = (seq<Call>, Call) -> bool

  class Network {
    var trace: seq<Call>
    const refuses: Refusal

    constructor (refuses: Refusal)
      ensures trace == [] && this.refuses == refuses
    {
      trace := [];
      this.refuses := refuses;
    }

    /** Makes one request; `ok` is false when it raised. */
    method Request(c: Call) returns (ok: bool)
      modifies this
      ensures trace == old(trace) + [c]
      ensures ok == !refuses(old(trace), c)
    {
      ok := !refuses(trace, c);
      trace := trace + [c];
    }
  }

  /** The requests a sequence of calls actually made, and whether all of them returned. */
  datatype Session = Session(calls: seq<Call>, completed: bool)

  lemma ConsPrefixes(h: seq<Call>, c: Call, rest: seq<Call>)
    ensures forall i :: 1 <= i <= |rest| + 1 ==> h + ([c] + rest)[..i] == (h + [c]) + rest[..i - 1]
  {
    forall i | 1 <= i <= |rest| + 1 ensures h + ([c] + rest)[..i] == (h + [c]) + rest[..i - 1] {
      assert ([c] + rest)[..i] == [c] + rest[..i - 1];
    }
  }

  /**
   * Making the calls of `plan` in order after history `h`, stopping at the first one
   * that raises: the calls made are a prefix of the plan, and all of it when every
   * call returned.
   */
  function Run(refuses: Refusal, h: seq<Call>, plan: seq<Call>): (s: Session)
    ensures s.calls <= plan
    ensures s.completed ==> s.calls == plan
    ensures !s.completed ==> s.calls != []
    decreases |plan|
  {
    if plan == [] then Session([], true)
    else if refuses(h, plan[0]) then Session([plan[0]], false)
    else
      var rest := Run(refuses, h + [plan[0]], plan[1..]);
      assert [plan[0]] + plan[1..] == plan;
      Session([plan[0]] + rest.calls, rest.completed)
  }

  /** Every call of `s` returned except, when `s` did not complete, the last one, which raised. */
  predicate StopsAtRefusal(refuses: Refusal, h: seq<Call>, s: Session) {
    forall i :: 0 <= i < |s.calls| ==>
      (refuses(h + s.calls[..i], s.calls[i]) <==> (!s.completed && i == |s.calls| - 1))
  }

  /** A call that returned, followed by a session that stops at its first refusal, still does. */
  lemma StopsAtRefusalCons(refuses: Refusal, h: seq<Call>, c: Call, s: Session)
    requires !refuses(h, c)
    requires !s.completed ==> s.calls != []
    requires StopsAtRefusal(refuses, h + [c], s)
    ensures StopsAtRefusal(refuses, h, Session([c] + s.calls, s.completed))
  {
    var t := Session([c] + s.calls, s.completed);
    assert h + t.calls[..0] == h;
    ConsPrefixes(h, c, s.calls);
    forall i | 1 <= i < |t.calls|
      ensures refuses(h + t.calls[..i], t.calls[i]) <==> (!t.completed && i == |t.calls| - 1)
    {
      assert t.calls[i] == s.calls[i - 1];
      assert h + t.calls[..i] == (h + [c]) + s.calls[..i - 1];
      assert refuses((h + [c]) + s.calls[..i - 1], s.calls[i - 1])
        <==> (!s.completed && i - 1 == |s.calls| - 1);
    }
  }

  /** A single call stops at a refusal exactly when it is refused. */
  lemma StopsAtRefusalOne(refuses: Refusal, h: seq<Call>, c: Call)
    ensures StopsAtRefusal(refuses, h, Session([c], !refuses(h, c)))
  {
    assert h + [c][..0] == h;
  }

  lemma {:induction false} RunStopsAtRefusal(refuses: Refusal, h: seq<Call>, plan: seq<Call>)
    ensures StopsAtRefusal(refuses, h, Run(refuses, h, plan))
    decreases |plan|
  {
    if plan != [] {
      if refuses(h, plan[0]) {
        assert h + [plan[0]][..0] == h;
      } else {
        RunStopsAtRefusal(refuses, h + [plan[0]], plan[1..]);
        StopsAtRefusalCons(refuses, h, plan[0], Run(refuses, h + [plan[0]], plan[1..]));
      }
    }
  }

  /** The first call of a plan is made; the rest are made only if it returns. */
  lemma RunCons(refuses: Refusal, h: seq<Call>, c: Call, rest: seq<Call>)
    ensures Run(refuses, h, [c] + rest) ==
      if refuses(h, c) then Session([c], false)
      else Session([c] + Run(refuses, h + [c], rest).calls, Run(refuses, h + [c], rest).completed)
  {
    assert ([c] + rest)[0] == c && ([c] + rest)[1..] == rest;
  }

  /** Where a call raised. */
  datatype Step =
    | Connecting      // opening the connection
    | Formatting      // formatting an address
    | SettingDebug    // set_debuglevel
    | LoggingIn       // login
    | MissingSender   // `me[0]` on an empty sender list (IndexError)
    | Sending         // sendmail
    | Quitting        // quit
    | Releasing       // __exit__ or release

  function StepOf(c: Call): Step {
    match c
    case Open(_, _, _) => Connecting
    case SetDebugLevel(_) => SettingDebug
    case Login(_, _) => LoggingIn
    case Sendmail(_, _, _) => Sending
    case Quit => Quitting
    case Exit => Releasing
  }

  /** Whether a Python call returned or raised, and where. */
  datatype Outcome = Returned | Raised(at: Step)

  function OutcomeOf(s: Session): Outcome {
    if s.completed || s.calls == [] then Returned else Raised(StepOf(s.calls[|s.calls| - 1]))
  }

  /**
   * A plan run after an accepted call `c`: the whole sequence stops at the first refusal,
   * and the step reported is that of the last request.
   */
  lemma RunAfter(refuses: Refusal, h: seq<Call>, c: Call, plan: seq<Call>)
    requires !refuses(h, c)
    ensures var s := Run(refuses, h + [c], plan);
      var calls := [c] + s.calls;
      && StopsAtRefusal(refuses, h, Session(calls, OutcomeOf(s) == Returned))
      && (OutcomeOf(s).Raised? ==> StepOf(calls[|calls| - 1]) == OutcomeOf(s).at)
  {
    var s := Run(refuses, h + [c], plan);
    RunStopsAtRefusal(refuses, h + [c], plan);
    StopsAtRefusalCons(refuses, h, c, s);
    assert OutcomeOf(s) == Returned <==> s.completed;
    if !s.completed {
      assert ([c] + s.calls)[|s.calls|] == s.calls[|s.calls| - 1];
    }
  }

  /** A relay that refuses nothing completes every plan. */
  lemma {:induction false} RunAccepting(refuses: Refusal, h: seq<Call>, plan: seq<Call>)
    requires forall g, c :: !refuses(g, c)
    ensures Run(refuses, h, plan) == Session(plan, true)
    decreases |plan|
  {
    if plan != [] {
      RunAccepting(refuses, h + [plan[0]], plan[1..]);
    }
  }
}

/**
 * The `Smtp` dependency (service_smtp/core/dependencies/smtp.py): merges the configured
 * connection options with its own at setup, builds one `SmtpClient` per worker request
 * and forgets it, releasing it, when the request finishes.
 */
module Dependency {
  import opened Wrappers
  import opened Values
  import opened Transport
  import Client

  /** A worker request id. */
  type RequestId = string

  /** `connect_options or {}` on what the configuration holds for the alias (`None` counts as empty). */
  function LookedUp(looked: Lookup): (r: Options)
    ensures looked.Entry? ==> r == looked.options
    ensures !looked.Entry? ==> r == map[]
  {
    if looked.Entry? then looked.options else map[]
  }

  /**
   * The options `setup` leaves: the configured ones overlaid by the dependency's own, which win
   * on a shared key, and `timeout` set to 5 when neither gives one.
   */
  function SetupOptions(looked: Lookup, own: Options): (r: Options)
    ensures r.Keys == LookedUp(looked).Keys + own.Keys + {"timeout"}
    ensures forall k :: k in own ==> r[k] == own[k]
    ensures forall k :: k in LookedUp(looked) && k !in own ==> r[k] == LookedUp(looked)[k]
    ensures "timeout" !in own && "timeout" !in LookedUp(looked) ==> r["timeout"] == Int(5)
  {
    var merged := LookedUp(looked) + own;
    if "timeout" in merged then merged else merged["timeout" := Int(5)]
  }

  /** Running `setup` again changes nothing more. */
  lemma SetupIdempotent(looked: Lookup, own: Options)
    ensures SetupOptions(looked, SetupOptions(looked, own)) == SetupOptions(looked, own)
  {
    var once := SetupOptions(looked, own);
    var twice := SetupOptions(looked, once);
    assert twice.Keys == once.Keys;
    forall k | k in twice ensures twice[k] == once[k] {
    }
  }

  class Smtp {
    const alias: string
    var sessionMap: map<RequestId, Client.SmtpClient>
    var connectOptions: Options

    /** `__init__(alias, connect_options)`: no sessions, and `{}` when no options are given. */
    constructor (alias: string, connectOptions: Option<Options>)
      ensures this.alias == alias && sessionMap == map[]
      ensures this.connectOptions == if connectOptions.Some? then connectOptions.value else map[]
    {
      this.alias := alias;
      sessionMap := map[];
      this.connectOptions := connectOptions.GetOr(map[]);
    }

    /** `setup()`, given what the configuration holds for `alias`. */
    method Setup(looked: Lookup)
      modifies this
      ensures connectOptions == SetupOptions(looked, old(connectOptions))
      ensures sessionMap == old(sessionMap)
    {
      connectOptions := LookedUp(looked) + connectOptions;
      if "timeout" !in connectOptions {
        connectOptions := connectOptions["timeout" := Int(5)];
      }
    }

    /**
     * `get_instance(context)`: a new client built from the options is stored under the request
     * id, replacing any earlier one, and returned; without `username` or `password` the client
     * constructor raises TypeError and the map is left as it was.
     */
    method GetInstance(callId: RequestId) returns (r: Result<Client.SmtpClient, PyError>)
      modifies this
      ensures connectOptions == old(connectOptions)
      ensures Client.BindOptions(connectOptions).None? ==> r == Err(TypeError) && sessionMap == old(sessionMap)
      ensures Client.BindOptions(connectOptions).Some? ==>
        && r.Ok? && fresh(r.value)
        && r.value.Config() == Client.Configured(Client.BindOptions(connectOptions).value)
        && sessionMap == old(sessionMap)[callId := r.value]
    {
      var bound := Client.BindOptions(connectOptions);
      if bound.None? {
        return Err(TypeError);
      }
      var client := new Client.SmtpClient(bound.value);
      sessionMap := sessionMap[callId := client];
      return Ok(sessionMap[callId]);
    }

    /**
     * `worker_finish(context)`: the entry for the request id is removed first, then released;
     * `releaseRaises` says whether that release raises. An unknown id releases nothing.
     */
    method WorkerFinish(callId: RequestId, releaseRaises: bool) returns (outcome: Outcome, released: Option<Client.SmtpClient>)
      modifies this
      ensures sessionMap == old(sessionMap) - {callId}
      ensures connectOptions == old(connectOptions)
      ensures callId in old(sessionMap) ==> released == Some(old(sessionMap)[callId])
      ensures callId !in old(sessionMap) ==> released == None && outcome == Returned
      ensures callId in old(sessionMap) ==> outcome == if releaseRaises then Raised(Releasing) else Returned
    {
      var session: Option<Client.SmtpClient> := None;
      if callId in sessionMap {
        session := Some(sessionMap[callId]);
        sessionMap := sessionMap - {callId};
      }
      released := session;
      outcome := if session.Some? && releaseRaises then Raised(Releasing) else Returned;
    }
  }
}

/**
 * `SmtpProxy` (service_smtp/core/proxy.py): builds an `SmtpClient` for a configured alias,
 * with options given to the proxy and to the call laid over the configured ones.
 */
module Proxy {
  import opened Wrappers
  import opened Values
  import Client

  /**
   * The options the client is built with: the alias's configured options updated with the
   * proxy's (already updated with the call's). A missing alias gives `{}`; an entry holding
   * `None` makes `config.update` raise AttributeError.
   */
  function ClientOptions(looked: Lookup, options: Options): (r: Option<Options>)
    ensures r.None? <==> looked.NullEntry?
    ensures looked.Missing? ==> r == Some(options)
    ensures r.Some? ==> forall k :: k in r.value <==> k in options || (looked.Entry? && k in looked.options)
    ensures r.Some? ==> forall k :: k in options ==> r.value[k] == options[k]
    ensures r.Some? && looked.Entry? ==>
      forall k :: k in looked.options && k !in options ==> r.value[k] == looked.options[k]
  {
    match looked
    case Missing => Some(options)
    case NullEntry => None
    case Entry(m) => Some(m + options)
  }

  /** Call options win over proxy options, which win over the configured ones. */
  lemma Precedence(m: Options, proxyOptions: Options, callOptions: Options, k: string)
    requires k in m || k in proxyOptions || k in callOptions
    ensures var r := ClientOptions(Entry(m), proxyOptions + callOptions);
      && r.Some? && k in r.value
      && r.value[k] == if k in callOptions then callOptions[k]
                       else if k in proxyOptions then proxyOptions[k]
                       else m[k]
  {
  }

  class SmtpProxy {
    const config: Configure
    var options: Options

    /** `__init__(config, **options)`. */
    constructor (config: Configure, options: Options)
      ensures this.config == config && this.options == options
    {
      this.config := config;
      this.options := options;
    }

    /**
     * `__call__(alias, **options)`: the proxy's own options are updated in place with the
     * call's first, so they persist into later calls, even when this call raises.
     */
    method Call(alias: string, callOptions: Options) returns (r: Result<Client.SmtpClient, PyError>)
      modifies this
      ensures options == old(options) + callOptions
      ensures ClientOptions(config.connectOptions(alias), options).None? ==> r == Err(AttributeError)
      ensures ClientOptions(config.connectOptions(alias), options).Some? ==>
        var bound := Client.BindOptions(ClientOptions(config.connectOptions(alias), options).value);
        && (bound.None? ==> r == Err(TypeError))
        && (bound.Some? ==> r.Ok? && fresh(r.value) && r.value.Config() == Client.Configured(bound.value))
    {
      options := options + callOptions;
      var clientOptions: Options;
      match config.connectOptions(alias) {
        case Missing =>
          clientOptions := map[];
          clientOptions := clientOptions + options;
        case NullEntry =>
          return Err(AttributeError);
        case Entry(m) =>
          clientOptions := m + options;
      }
      var bound := Client.BindOptions(clientOptions);
      if bound.None? {
        return Err(TypeError);
      }
      var client := new Client.SmtpClient(bound.value);
      return Ok(client);
    }
  }
}

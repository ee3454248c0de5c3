/**
 * The FireClient copy of the response consumer. Its decoding is line for
 * line the one of module Consumers, so it delegates to such a consumer; its
 * `run` is the header scan alone.
 */
module FireClientConsumers {
  import opened Php
  import opened Wildfire
  import opened FirePhpConsole
  import opened Http
  import opened Dispatch
  import Consumers

  class ResponseConsumer {
    /** The decoder this copy shares with module Consumers, holding the prefix and the console. */
    const decoder: Consumers.ResponseConsumer

    constructor (client: FirePhp, php: Builtins)
      ensures fresh(decoder)
      ensures decoder.remotePrefix == DefaultRemotePrefix
      ensures decoder.client == client && decoder.php == php
    {
      decoder := new Consumers.ResponseConsumer(client, php);
    }

    method SetRemotePrefix(prefix: string)
      modifies decoder
      ensures decoder.remotePrefix == prefix
    {
      decoder.SetRemotePrefix(prefix);
    }

    /** Relays each value of each Wildfire header of the response, in order. */
    method Run(response: Response)
      modifies decoder.client
      ensures decoder.client.calls == old(decoder.client.calls)
        + ScanCalls(ProxyOf(decoder.remotePrefix, decoder.php), response.headers)
    {
      decoder.ProxyResponseHeaders(Some(response));
    }
  }
}

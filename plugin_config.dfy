/**
 * The plugin's configuration: the WebSocket listening port and the URL of the
 * remote receiver. Both start at fixed defaults; a configuration file, when
 * present, overrides each of them independently, and only where it has the key.
 */
module Config {
  import opened Wrappers
  import opened JavaInt

  const DefaultPort: Int32 := 8887
  const DefaultPingUrl: string := "http://localhost/ci-receiver"

  /**
   * The configuration file after parsing: the value under the key `port`, and the
   * value under the key `url`, each absent when the file has no such path.
   */
  datatype ConfigFile = ConfigFile(port: Option<Int32>, url: Option<string>)

  /** The port a freshly built configuration holds, given the file (`None`: no file). */
  function ConfiguredPort(file: Option<ConfigFile>): (p: Int32)
    ensures file.None? ==> p == DefaultPort
    ensures file.Some? && file.value.port.Some? ==> p == file.value.port.value
    ensures p != DefaultPort ==> file.Some? && file.value.port == Some(p)
  {
    match file
    case Some(ConfigFile(Some(port), _)) => port
    case _ => DefaultPort
  }

  /** The receiver URL a freshly built configuration holds, given the file. */
  function ConfiguredPingUrl(file: Option<ConfigFile>): (u: string)
    ensures file.None? ==> u == DefaultPingUrl
    ensures file.Some? && file.value.url.Some? ==> u == file.value.url.value
    ensures u != DefaultPingUrl ==> file.Some? && file.value.url == Some(u)
  {
    match file
    case Some(ConfigFile(_, Some(url))) => url
    case _ => DefaultPingUrl
  }

  /** The port does not depend on the file's `url` entry. */
  lemma PortIgnoresUrl(port: Option<Int32>, url1: Option<string>, url2: Option<string>)
    ensures ConfiguredPort(Some(ConfigFile(port, url1))) == ConfiguredPort(Some(ConfigFile(port, url2)))
  {
  }

  /** The receiver URL does not depend on the file's `port` entry. */
  lemma PingUrlIgnoresPort(port1: Option<Int32>, port2: Option<Int32>, url: Option<string>)
    ensures ConfiguredPingUrl(Some(ConfigFile(port1, url))) == ConfiguredPingUrl(Some(ConfigFile(port2, url)))
  {
  }

  class PluginConfig {
    var port: Int32
    var pingUrl: string

    /** Reads the configuration file (`None` when it does not exist). */
    constructor (file: Option<ConfigFile>)
      ensures GetPort() == ConfiguredPort(file)
      ensures GetPingUrl() == ConfiguredPingUrl(file)
    {
      port := DefaultPort;
      pingUrl := DefaultPingUrl;
      new;
      if file.Some? {
        if file.value.port.Some? {
          SetPort(file.value.port.value);
        }
        if file.value.url.Some? {
          SetPingUrl(file.value.url.value);
        }
      }
    }

    function GetPort(): (p: Int32)
      reads this
      ensures p == port
    {
      port
    }

    method SetPort(p: Int32)
      modifies this
      ensures GetPort() == p
      ensures GetPingUrl() == old(GetPingUrl())
    {
      port := p;
    }

    function GetPingUrl(): (u: string)
      reads this
      ensures u == pingUrl
    {
      pingUrl
    }

    method SetPingUrl(u: string)
      modifies this
      ensures GetPingUrl() == u
      ensures GetPort() == old(GetPort())
    {
      pingUrl := u;
    }
  }
}

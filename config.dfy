/** The client configuration and its defaults. */
module Config {
  import opened Wrappers
  import Strings
  import Clusters

  datatype Config = Config(URL: string, RequestTimeout: int,
                           HttpBasicAuthUser: string, HttpBasicPassword: string)

  /** The default configuration: a local service, a 5 second timeout, no credentials. */
  function NewDefaultConfig(): (c: Config)
    ensures c.URL == "http://127.0.0.1:8080"
    ensures c.RequestTimeout == 5
    ensures c.HttpBasicAuthUser == "" && c.HttpBasicPassword == ""
  {
    Config("http://127.0.0.1:8080", 5, "", "")
  }

  /** The basic-auth credentials a request carries: only when a user name is configured. */
  function BasicAuth(c: Config): (r: Option<(string, string)>)
    ensures r.Some? <==> c.HttpBasicAuthUser != ""
    ensures r.Some? ==> r.value == (c.HttpBasicAuthUser, c.HttpBasicPassword)
  {
    if c.HttpBasicAuthUser != "" then Some((c.HttpBasicAuthUser, c.HttpBasicPassword)) else None
  }

  /** Requests made with the default configuration carry no basic-auth header. */
  lemma DefaultHasNoBasicAuth()
    ensures BasicAuth(NewDefaultConfig()) == None
  {
  }

  /** The scheme and host of the default URL. */
  const DefaultScheme: string := "http"
  const DefaultHost: string := "127.0.0.1:8080"

  /** The default URL is the base URL of its one host. */
  lemma DefaultUrlParts()
    ensures NewDefaultConfig().URL == Clusters.GenerateChronosUrl(DefaultScheme, DefaultHost)
    ensures ',' !in DefaultHost
  {
    assert DefaultHost == ['1', '2', '7', '.', '0', '.', '0', '.', '1', ':', '8', '0', '8', '0'];
  }

  /**
   * The cluster a client builds from the default configuration: the scheme
   * is accepted, there is a single member, and it is the current one, so
   * the base URL handed out is the configured URL itself.
   */
  method DefaultCluster() returns (c: Clusters.Cluster, member: Result<string, Clusters.ClusterError>)
    ensures c.Protocol == DefaultScheme && c.Hosts == [DefaultHost]
    ensures member == Success(NewDefaultConfig().URL)
  {
    DefaultUrlParts();
    Strings.SplitJoin([DefaultHost], ',');
    var built := Clusters.NewCluster(NewDefaultConfig().URL, DefaultScheme, DefaultHost);
    c := built.value;
    member := c.GetMember();
  }
}

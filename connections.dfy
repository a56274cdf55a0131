/**
 * The process-wide connection manager, seen as a map from service name to live
 * connection (last registration wins), and the provider registry consulted by the
 * vault's `connect`: which connection class serves which service name.
 */
module Connections {

  import opened Wrappers
  import opened Values
  import OpenAIProvider
  import AwsProvider

  /** A live connection of one of the two provider classes. */
  datatype Connection = OpenAIConn(openai: OpenAIProvider.OpenAIConnection) | AWSConn(aws: AwsProvider.AWSConnection)
  {
    function Obj(): object
    {
      if OpenAIConn? then openai else aws
    }
  }

  class ConnectionManager {
    var connections: map<string, Connection>

    constructor ()
      ensures connections == map[]
    {
      connections := map[];
    }

    /** `add_connection`: registers `conn` under `name`, replacing any earlier entry. */
    method AddConnection(name: string, conn: Connection)
      modifies this
      ensures connections == old(connections)[name := conn]
    {
      connections := connections[name := conn];
    }

    /** `get_connection`: the entry under `name`, `None` when there is none. */
    function GetConnection(name: string): (c: Option<Connection>)
      reads this
      ensures c.Some? <==> name in connections
      ensures c.Some? ==> c.value == connections[name]
    {
      if name in connections then Some(connections[name]) else None
    }
  }

  /** The connection class (and auth schema) a provider entry names. */
  datatype ProviderKind = AWSProvider | OpenAIProvider

  /** The provider map of the settings module, reduced to the part `connect` uses. */
  const ProvidersListMap: map<string, ProviderKind> := map["AWS" := AWSProvider, "OpenAI" := OpenAIProvider]

  /** The arguments a connection is constructed from. */
  datatype ConnSpec =
    | OpenAISpec(apiKey: string, openaiSetting: Option<Dict>)
    | AWSSpec(accessKey: string, secretAccessKey: string, awsSetting: Dict)

  /** `c` was built from `s` and has been initialised with a client built from the same arguments. */
  ghost predicate Realizes(c: Connection, s: ConnSpec)
    reads c.Obj()
  {
    match s
    case OpenAISpec(key, other) =>
      && c.OpenAIConn?
      && c.openai.apiKey == key && c.openai.otherSetting == other
      && c.openai.client != null && c.openai.client.apiKey == key
    case AWSSpec(key, secret, other) =>
      && c.AWSConn?
      && c.aws.accessKeyId == key && c.aws.secretAccessKey == secret
      && c.aws.regionName == GetOr(other, "region_name", AwsProvider.DefaultRegion)
      && c.aws.serviceName == GetOr(other, "service_name", AwsProvider.DefaultService)
      && c.aws.client != null
      && c.aws.client.accessKeyId == key && c.aws.client.secretAccessKey == secret
      && c.aws.client.regionName == c.aws.regionName && c.aws.client.serviceName == c.aws.serviceName
  }

  /** Constructs the connection for `s` and initialises it (`conn.init_connection()`). */
  method Open(s: ConnSpec) returns (c: Connection)
    ensures fresh(c.Obj())
    ensures Realizes(c, s)
  {
    match s
    case OpenAISpec(key, other) =>
      var conn := new OpenAIProvider.OpenAIConnection(key, other);
      conn.InitConnection();
      c := OpenAIConn(conn);
    case AWSSpec(key, secret, other) =>
      var conn := new AwsProvider.AWSConnection(key, secret, other);
      conn.InitConnection();
      c := AWSConn(conn);
  }
}

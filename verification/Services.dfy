/** The service description that the rest of the model passes around. */
module Services {

  datatype Strategy = StopStrategy | PauseStrategy

  /** The fields of a parsed service configuration that the lifecycle reads. */
  datatype Config = Config(
    subdomain: string,
    container: string,
    targetPort: int,
    idleTimeout: int,
    startupTimeout: int,
    healthPath: string,
    disableIdle: bool,
    strategy: Strategy)

  type Labels = map<string, string>

  /** One entry of Docker's container list; `name` is already without its leading slash. */
  datatype ContainerInfo = ContainerInfo(name: string, labels: Labels, state: string)

  function Get<K, V>(m: map<K, V>, k: K, default: V): V {
    if k in m then m[k] else default
  }
}

/** The rules of Kubernetes ingress resources, shared by the controller and the configurator. */
module Ingresses {
  import opened Common

  datatype Backend = Backend(service: string, port: string)

  datatype Path = Path(path: string, backend: Backend)

  datatype Rule = Rule(host: string, http: Option<seq<Path>>)
}

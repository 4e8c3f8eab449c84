/** Module instances that can be attached to a feed, entry or person. */
module Modules {
  import SyModuleImpl

  /**
   An attached module: a Syndication module, or a module of any other
   contract given by its URI and its property values.
   */
  datatype Module =
    | Syndication(sy: SyModuleImpl.SyModule)
    | Other(contractUri: string, properties: map<string, string>)
  {
    /** The contract URI the module is looked up by. */
    function Uri(): string {
      match this
      case Syndication(sy) => sy.uri
      case Other(u, _) => u
    }
  }
}

/** The server runtime types the loader dispatches on, and the one piece of
    the server's extended properties it consults. */
module RuntimeTypes {

  /** The runtime-type identifiers the default table names, one constructor per
      constant of the tooling constants interface; every other identifier
      (AS 7, EAP 6, WildFly, ...) is `Unlisted`, carrying its identifier. */
  datatype RuntimeTypeId =
    | As32
    | As40
    | As42
    | Eap43
    | As50
    | As51
    | Eap50
    | As60
    | Unlisted(id: string)

  /** How a server lays out its configuration and deployments on disk. Only
      the "config-deployments" structure matters here. */
  datatype FileStructure = ConfigDeployments | OtherFileStructure

  /** The extended properties of a runtime type: what the loader reads from them. */
  datatype ServerProperties = ServerProperties(fileStructure: FileStructure)

  /** A runtime type: its identifier, and what the extended-properties adapter
      answers for it (`None` when it has no extended properties). */
  datatype RuntimeType = RuntimeType(id: RuntimeTypeId, props: Option<ServerProperties>)

  datatype Option<+T> = None | Some(value: T)

  /** A runtime type whose defaults come from its jboss-modules repository:
      it has extended properties, and they report the config-deployments structure. */
  predicate JBossModulesStyle(rt: RuntimeType) {
    rt.props.Some? && rt.props.value.fileStructure == ConfigDeployments
  }
}

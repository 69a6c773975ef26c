/** Content packs as the rest of the engine sees them once loaded. */
module Bundles {

  datatype Scenario = Scenario(name: string, title: string, description: string)

  /** One interview position. */
  datatype Bundle = Bundle(name: string, description: string, image: string,
                           hasLab: bool, hasSetup: bool, hasKind: bool, scenarios: seq<Scenario>)

  datatype Pack = Pack(contract: int, name: string, version: string, description: string, bundles: seq<Bundle>)
}

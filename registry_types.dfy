/**
 * The records of the Terraform Registry client (src/registry/client.rs)
 * that the rest of the registry layer passes around.  Only the fields the
 * modelled logic reads are kept; serde's catch-all `extra` maps and the
 * optional presentation fields are dropped.
 */
module RegistryTypes {
  datatype ProviderInfo = ProviderInfo(
    name: string,
    namespace: string,
    version: string,
    description: string,
    downloads: nat,
    publishedAt: string,
    id: string)

  datatype DocIdResult = DocIdResult(
    id: string,
    title: string,
    description: string,
    category: string)

  datatype ModuleInfo = ModuleInfo(
    id: string,
    namespace: string,
    name: string,
    provider: string,
    version: string,
    description: string,
    downloads: nat)

  /** `RegistryError`: one constructor per variant, with the fields each carries. */
  datatype RegistryError =
    | HttpError(message: string)
    | JsonError(message: string)
    | ProviderNotFound(provider: string, namespace: string)
    | ModuleNotFound(moduleName: string, provider: string, namespace: string)
    | ServiceNotFound(service: string, provider: string, namespace: string)
    | DocumentationNotFound(docId: string)
    | InvalidResponse
    | RateLimited
    | NoSearchResults(query: string)
    | NoVersionsAvailable(provider: string, namespace: string)
    | NoModuleVersionsAvailable(moduleName: string)
}

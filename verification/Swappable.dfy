/** The hot-swappable model wrapper of internal/bootstrap/models.go. */
module Swappable {

  /** What a wrapper forwards to: a provider client, or another wrapper. */
  datatype Backend = Client(provider: string, name: string) | Wrapper(inner: SwappableModel)

  class SwappableModel {
    var provider: string
    var name: string
    var backend: Backend

    constructor (provider: string, name: string, backend: Backend)
      ensures this.provider == provider && this.name == name && this.backend == backend
    {
      this.provider, this.name, this.backend := provider, name, backend;
    }

    method Swap(provider: string, name: string, backend: Backend)
      modifies this
      ensures this.provider == provider && this.name == name && this.backend == backend
    {
      this.provider, this.name, this.backend := provider, name, backend;
    }
  }
}

/** The API server's bind options and their validator. */
module ApiServerConfig {

  import opened Base

  /** `ApiServerOptions{BindAddress, BindPort}`. Go's `int` is 64 bits wide; the
      model's port is unbounded, so the range check covers every value a flag
      could have set. */
  datatype ApiServerOptions = ApiServerOptions(bindAddress: string, bindPort: int)

  /** `apiServerDefaults`. */
  const ApiServerDefaults := ApiServerOptions("127.0.0.1", 9099)

  /** `NewApiServerOptions` copies the defaults. */
  function NewApiServerOptions(): (s: ApiServerOptions)
    ensures s.bindAddress == "127.0.0.1"
    ensures s.bindPort == 9099
  {
    ApiServerOptions(ApiServerDefaults.bindAddress, ApiServerDefaults.bindPort)
  }

  /** 0 through 65535, both ends included. */
  predicate PortInRange(port: int)
  {
    0 <= port <= 65535
  }

  /** `Validate`: a port outside 0..65535 gives exactly one error naming it;
      an in-range port gives none. The bind address is never looked at. */
  function Validate(s: ApiServerOptions): (errs: seq<ValidationError>)
    ensures errs == [] <==> PortInRange(s.bindPort)
    ensures !PortInRange(s.bindPort) ==> errs == [BindPortOutOfRange(s.bindPort)]
  {
    if s.bindPort < 0 || s.bindPort > 65535 then [BindPortOutOfRange(s.bindPort)] else []
  }

  /** Both ends of the range are accepted, and the first value past either end
      is rejected with one error. */
  lemma PortBoundsInclusive(address: string)
    ensures Validate(ApiServerOptions(address, 0)) == []
    ensures Validate(ApiServerOptions(address, 65535)) == []
    ensures Validate(ApiServerOptions(address, -1)) == [BindPortOutOfRange(-1)]
    ensures Validate(ApiServerOptions(address, 65536)) == [BindPortOutOfRange(65536)]
  {
  }

  /** The bind address never contributes an error. */
  lemma BindAddressNotValidated(s: ApiServerOptions, address: string)
    ensures Validate(s.(bindAddress := address)) == Validate(s)
  {
  }

  /** The defaults validate clean. */
  lemma DefaultsValid()
    ensures Validate(NewApiServerOptions()) == []
  {
  }
}

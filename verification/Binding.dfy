/** The login => signing gate (orchestrator/binding.go): which signing flows a login method may drive. */
module Binding {
  import opened Protocol

  /** An unknown or empty method permits nothing. */
  function PermittedFlows(loginMethod: LoginMethod): seq<Flow> {
    match loginMethod
    case WebEid => [WebEidFlow, CscEidPlugin]
    case LegacyEid => [LegacyEidFlow, CscEidPlugin]
    case EidScan => [EidScanFlow, CscEidScan]
    case EparakstsMobile => [EparakstsMobileFlow, EparakstsMobileEseal]
    case OtherMethod(_) => []
  }

  predicate Permits(loginMethod: LoginMethod, flow: Flow) {
    flow in PermittedFlows(loginMethod)
  }
}

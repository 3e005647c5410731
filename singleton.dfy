/**
 * The create-once guard `getVoltAgentInstance` of voltagent/index.ts. The
 * guarded slot is the process-wide `globalThis.voltAgentInstance`, which
 * outlives a hot reload of the module; building the host itself (its agents
 * and its server) belongs to the framework and is not modelled.
 */
module Singleton {
  import opened Wrappers

  /** The multi-agent host object; only its identity matters here. */
  class VoltAgent {
    constructor ()
    {
    }
  }

  /** The global object, reduced to the one slot the guard tests and fills. */
  class GlobalThis {
    /** `globalThis.voltAgentInstance`: `undefined` or the host. */
    var voltAgentInstance: Option<VoltAgent>
    /** How many hosts the guard has constructed so far. */
    ghost var constructions: nat

    /** At most one construction, and none while the slot is still empty. */
    ghost predicate Valid()
      reads this
    {
      constructions <= 1 && (voltAgentInstance.None? ==> constructions == 0)
    }

    /** A global object whose slot may already hold a host from an earlier load. */
    constructor (preset: Option<VoltAgent>)
      ensures Valid()
      ensures voltAgentInstance == preset && constructions == 0
    {
      voltAgentInstance := preset;
      constructions := 0;
    }

    /**
     * `getVoltAgentInstance()`: an empty slot is filled with a freshly
     * constructed host; a filled slot is returned as it is, and nothing is
     * constructed.
     */
    method GetVoltAgentInstance() returns (instance: VoltAgent)
      requires Valid()
      modifies this
      ensures Valid()
      ensures voltAgentInstance == Some(instance)
      ensures old(voltAgentInstance).Some? ==>
        instance == old(voltAgentInstance).value && constructions == old(constructions)
      ensures old(voltAgentInstance).None? ==>
        fresh(instance) && constructions == old(constructions) + 1 == 1
    {
      if voltAgentInstance.None? {
        var host := new VoltAgent();
        voltAgentInstance := Some(host);
        constructions := constructions + 1;
      }
      instance := voltAgentInstance.value;
    }
  }

  /**
   * The module-level `export const voltAgent = getVoltAgentInstance()`,
   * evaluated on the first load and again on a hot reload: both evaluations
   * see the same host, and at most one host is ever constructed.
   */
  method LoadThenReload(global: GlobalThis) returns (first: VoltAgent, second: VoltAgent)
    requires global.Valid()
    modifies global
    ensures global.Valid() && global.constructions <= 1
    ensures first == second && global.voltAgentInstance == Some(first)
    ensures old(global.voltAgentInstance).Some? ==>
      first == old(global.voltAgentInstance).value && global.constructions == old(global.constructions)
  {
    first := global.GetVoltAgentInstance();
    second := global.GetVoltAgentInstance();
  }
}

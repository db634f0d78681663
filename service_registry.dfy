/**
 * The Consul service registry: registration, deregistration and status of a service
 * instance, as commands on the Consul agent client and on the TTL heartbeat scheduler.
 *
 * Both collaborators are seen only through the calls the registry makes on them, kept in
 * order in a call log; what a catalog call did (returned, or threw a `ConsulException`) is
 * an input of the operation that makes it.
 */
module ServiceRegistry {
  import opened Wrappers
  import opened JavaText

  /** The health check of a registration; only its TTL is read (`None` is `null`). */
  datatype NewCheck = NewCheck(ttl: Option<string>)

  /** The service description sent to the agent; `check` is `null` when absent. */
  datatype NewService = NewService(id: string, name: string, check: Option<NewCheck>)

  /** A registration: the service it sends, the instance id and the service id. */
  datatype Registration = Registration(service: NewService, instanceId: string, serviceId: string)

  /** A health check returned by the catalog; only these two fields are read. */
  datatype Check = Check(serviceId: string, name: string)

  /** A call made on the agent client or on the TTL scheduler. */
  datatype Call =
    | AgentServiceRegister(service: NewService, aclToken: Option<string>)
    | AgentServiceDeregister(instanceId: string, aclToken: Option<string>)
    | AgentServiceSetMaintenance(instanceId: string, maintenanceEnabled: bool)
    | GetHealthChecksForService(serviceId: string)
    | TtlSchedulerAdd(service: NewService)
    | TtlSchedulerRemove(instanceId: string)
  {
    predicate OnScheduler() {
      TtlSchedulerAdd? || TtlSchedulerRemove?
    }
  }

  /** How a call on the agent client ended. */
  datatype CatalogOutcome = Returned | ThrewConsulException

  /** What a registry operation throws to its caller. */
  datatype RegistryError = ConsulException | IllegalArgument(status: string)

  /** What `getHealthChecksForService` did: returned the checks, or threw. */
  datatype HealthChecksResponse = Checks(checks: seq<Check>) | QueryThrew

  /** The status codes of Spring Boot's `Status.UP` and `Status.OUT_OF_SERVICE`. */
  const UP: string := "UP"
  const OUT_OF_SERVICE: string := "OUT_OF_SERVICE"

  /** The name Consul gives the check that marks an instance in maintenance mode. */
  const MAINTENANCE_CHECK_NAME: string := "Service Maintenance Mode"

  /** What the registry reads of its configuration: the ACL token and fail-fast flag of
      the discovery properties, the heartbeat flag, and whether a TTL scheduler exists. */
  datatype Settings = Settings(aclToken: Option<string>, failFast: bool, heartbeatEnabled: bool, hasTtlScheduler: bool)

  /** The four-part guard of `register` for handing the service to the TTL scheduler. */
  predicate HeartbeatGuard(settings: Settings, service: NewService) {
    && settings.heartbeatEnabled
    && settings.hasTtlScheduler
    && service.check.Some?
    && service.check.value.ttl.Some?
  }

  /** The calls `register` makes. */
  function RegisterCalls(settings: Settings, reg: Registration, catalog: CatalogOutcome): seq<Call> {
    [AgentServiceRegister(reg.service, settings.aclToken)]
    + (if catalog == Returned && HeartbeatGuard(settings, reg.service) then [TtlSchedulerAdd(reg.service)] else [])
  }

  /** How `register` ends: only a fail-fast registry rethrows a catalog failure. */
  function RegisterResult(settings: Settings, catalog: CatalogOutcome): Outcome<RegistryError> {
    if catalog == ThrewConsulException && settings.failFast then Fail(ConsulException) else Pass
  }

  /** The catalog register call, with the service and the ACL token, comes first, before
      any call on the scheduler. */
  lemma RegisterCallsCatalogFirst(settings: Settings, reg: Registration, catalog: CatalogOutcome)
    ensures |RegisterCalls(settings, reg, catalog)| >= 1
    ensures RegisterCalls(settings, reg, catalog)[0] == AgentServiceRegister(reg.service, settings.aclToken)
    ensures forall i :: 0 <= i < |RegisterCalls(settings, reg, catalog)| && RegisterCalls(settings, reg, catalog)[i].OnScheduler() ==> i > 0
  {
  }

  /** The scheduler is given the service exactly when the register call returned and the
      four-part guard holds; otherwise it is not touched at all. */
  lemma RegisterSchedulesIffGuard(settings: Settings, reg: Registration, catalog: CatalogOutcome)
    ensures TtlSchedulerAdd(reg.service) in RegisterCalls(settings, reg, catalog)
      <==> catalog == Returned && HeartbeatGuard(settings, reg.service)
    ensures !(catalog == Returned && HeartbeatGuard(settings, reg.service)) ==>
      forall c :: c in RegisterCalls(settings, reg, catalog) ==> !c.OnScheduler()
  {
  }

  /** A catalog failure propagates exactly in fail-fast mode; in both modes nothing
      follows the failed register call. A call that returned is never an error. */
  lemma RegisterFailurePolicy(settings: Settings, reg: Registration, catalog: CatalogOutcome)
    ensures catalog == Returned ==> RegisterResult(settings, catalog) == Pass
    ensures catalog == ThrewConsulException ==>
      && (RegisterResult(settings, catalog).Fail? <==> settings.failFast)
      && RegisterCalls(settings, reg, catalog) == [AgentServiceRegister(reg.service, settings.aclToken)]
  {
  }

  /** The calls `deregister` makes: the scheduler's remove when there is a scheduler,
      then always the catalog deregister call. */
  function DeregisterCalls(settings: Settings, reg: Registration): seq<Call> {
    (if settings.hasTtlScheduler then [TtlSchedulerRemove(reg.instanceId)] else [])
    + [AgentServiceDeregister(reg.instanceId, settings.aclToken)]
  }

  /** The catalog deregister call always happens, and last; the heartbeat removal
      happens exactly when there is a scheduler, strictly before it. */
  lemma DeregisterOrder(settings: Settings, reg: Registration)
    ensures var calls := DeregisterCalls(settings, reg);
      && |calls| >= 1
      && calls[|calls| - 1] == AgentServiceDeregister(reg.instanceId, settings.aclToken)
      && (TtlSchedulerRemove(reg.instanceId) in calls <==> settings.hasTtlScheduler)
      && (forall i :: 0 <= i < |calls| && calls[i].OnScheduler() ==> i < |calls| - 1 && calls[i] == TtlSchedulerRemove(reg.instanceId))
  {
  }

  /** The calls `setStatus` makes: maintenance on for OUT_OF_SERVICE, off for UP (both
      compared ignoring case), and none for any other status. */
  function SetStatusCalls(reg: Registration, status: string): seq<Call> {
    if EqualsIgnoreCase(status, OUT_OF_SERVICE) then [AgentServiceSetMaintenance(reg.instanceId, true)]
    else if EqualsIgnoreCase(status, UP) then [AgentServiceSetMaintenance(reg.instanceId, false)]
    else []
  }

  /** How `setStatus` ends: `IllegalArgumentException` for an unknown status, the
      client's exception when the maintenance call throws. */
  function SetStatusResult(status: string, catalog: CatalogOutcome): Outcome<RegistryError> {
    if !EqualsIgnoreCase(status, OUT_OF_SERVICE) && !EqualsIgnoreCase(status, UP) then Fail(IllegalArgument(status))
    else if catalog == ThrewConsulException then Fail(ConsulException)
    else Pass
  }

  /** The three-way mapping of `setStatus`. The two known codes never both match, so the
      mapping is unambiguous; an unknown status is rejected without any call, and no
      status touches the scheduler or the register and deregister endpoints. For a known
      status a failure of the maintenance call propagates, and only then is there an
      error. */
  lemma SetStatusMapping(reg: Registration, status: string, catalog: CatalogOutcome)
    ensures !(EqualsIgnoreCase(status, OUT_OF_SERVICE) && EqualsIgnoreCase(status, UP))
    ensures EqualsIgnoreCase(status, OUT_OF_SERVICE) ==>
      SetStatusCalls(reg, status) == [AgentServiceSetMaintenance(reg.instanceId, true)]
    ensures EqualsIgnoreCase(status, UP) ==>
      SetStatusCalls(reg, status) == [AgentServiceSetMaintenance(reg.instanceId, false)]
    ensures SetStatusResult(status, catalog) == Fail(IllegalArgument(status)) <==> SetStatusCalls(reg, status) == []
    ensures forall c :: c in SetStatusCalls(reg, status) ==> c.AgentServiceSetMaintenance?
    ensures EqualsIgnoreCase(status, OUT_OF_SERVICE) || EqualsIgnoreCase(status, UP) ==>
      (SetStatusResult(status, catalog) == Fail(ConsulException) <==> catalog == ThrewConsulException)
    ensures EqualsIgnoreCase(status, OUT_OF_SERVICE) || EqualsIgnoreCase(status, UP) ==>
      (SetStatusResult(status, catalog) == Pass <==> catalog == Returned)
  {
  }

  /** The comparison ignores case: lower-case and mixed-case spellings map like the
      codes themselves, and other strings are unknown. */
  lemma SetStatusIgnoresCase(reg: Registration)
    ensures SetStatusCalls(reg, "out_of_service") == [AgentServiceSetMaintenance(reg.instanceId, true)]
    ensures SetStatusCalls(reg, "Up") == [AgentServiceSetMaintenance(reg.instanceId, false)]
    ensures SetStatusCalls(reg, "DOWN") == [] && SetStatusCalls(reg, "UP ") == []
  {
    assert EqualsIgnoreCase("out_of_service", OUT_OF_SERVICE) by {
      assert forall i :: 0 <= i < |OUT_OF_SERVICE| ==> CharEqualsIgnoreCase("out_of_service"[i], OUT_OF_SERVICE[i]);
    }
    assert EqualsIgnoreCase("Up", UP) by {
      assert CharEqualsIgnoreCase("Up"[1], UP[1]);
    }
    assert !EqualsIgnoreCase("Up", OUT_OF_SERVICE) by { assert |"Up"| != |OUT_OF_SERVICE|; }
    assert !EqualsIgnoreCase("DOWN", OUT_OF_SERVICE) by { assert |"DOWN"| != |OUT_OF_SERVICE|; }
    assert !EqualsIgnoreCase("DOWN", UP) by { assert |"DOWN"| != |UP|; }
    assert !EqualsIgnoreCase("UP ", OUT_OF_SERVICE) by { assert |"UP "| != |OUT_OF_SERVICE|; }
    assert !EqualsIgnoreCase("UP ", UP) by { assert |"UP "| != |UP|; }
  }

  /** An instance is in maintenance when some check of its service is scoped to the
      instance and is named like the maintenance check, ignoring case. */
  predicate InMaintenance(checks: seq<Check>, instanceId: string) {
    exists i :: 0 <= i < |checks| && checks[i].serviceId == instanceId && EqualsIgnoreCase(checks[i].name, MAINTENANCE_CHECK_NAME)
  }

  class ConsulServiceRegistry {
    const settings: Settings
    /** Every call made on the agent client and on the TTL scheduler, in order. */
    var calls: seq<Call>

    constructor (settings: Settings)
      ensures this.settings == settings && calls == []
    {
      this.settings := settings;
      calls := [];
    }

    /** `register`: the catalog call first; the scheduler only after it returned and
        under the heartbeat guard; a catalog failure rethrown only in fail-fast mode. */
    method Register(reg: Registration, catalog: CatalogOutcome) returns (r: Outcome<RegistryError>)
      modifies this`calls
      ensures calls == old(calls) + RegisterCalls(settings, reg, catalog)
      ensures r == RegisterResult(settings, catalog)
    {
      calls := calls + [AgentServiceRegister(reg.service, settings.aclToken)];
      if catalog == ThrewConsulException {
        if settings.failFast {
          return Fail(ConsulException);
        }
        return Pass;
      }
      var service := reg.service;
      if settings.heartbeatEnabled && settings.hasTtlScheduler && service.check.Some? && service.check.value.ttl.Some? {
        calls := calls + [TtlSchedulerAdd(reg.service)];
      }
      return Pass;
    }

    /** `deregister`: the heartbeat removal (when there is a scheduler) strictly before
        the catalog call, whose failure propagates. */
    method Deregister(reg: Registration, catalog: CatalogOutcome) returns (r: Outcome<RegistryError>)
      modifies this`calls
      ensures calls == old(calls) + DeregisterCalls(settings, reg)
      ensures r == (if catalog == ThrewConsulException then Fail(ConsulException) else Pass)
    {
      if settings.hasTtlScheduler {
        calls := calls + [TtlSchedulerRemove(reg.instanceId)];
      }
      calls := calls + [AgentServiceDeregister(reg.instanceId, settings.aclToken)];
      r := if catalog == ThrewConsulException then Fail(ConsulException) else Pass;
    }

    /** `close` does nothing. */
    method Close()
      ensures calls == old(calls)
    {
    }

    /** `setStatus`: the case-insensitive three-way mapping onto the maintenance call. */
    method SetStatus(reg: Registration, status: string, catalog: CatalogOutcome) returns (r: Outcome<RegistryError>)
      modifies this`calls
      ensures calls == old(calls) + SetStatusCalls(reg, status)
      ensures r == SetStatusResult(status, catalog)
    {
      if EqualsIgnoreCase(status, OUT_OF_SERVICE) {
        calls := calls + [AgentServiceSetMaintenance(reg.instanceId, true)];
      } else if EqualsIgnoreCase(status, UP) {
        calls := calls + [AgentServiceSetMaintenance(reg.instanceId, false)];
      } else {
        return Fail(IllegalArgument(status));
      }
      r := if catalog == ThrewConsulException then Fail(ConsulException) else Pass;
    }

    /** `getStatus`: queries the checks of the registration's service and reports
        OUT_OF_SERVICE exactly when one of them is this instance's maintenance check,
        UP otherwise. The query is the only call. */
    method GetStatus(reg: Registration, response: HealthChecksResponse) returns (r: Result<string, RegistryError>)
      modifies this`calls
      ensures calls == old(calls) + [GetHealthChecksForService(reg.serviceId)]
      ensures response.QueryThrew? ==> r == Failure(ConsulException)
      ensures response.Checks? ==>
        r == Success(if InMaintenance(response.checks, reg.instanceId) then OUT_OF_SERVICE else UP)
    {
      calls := calls + [GetHealthChecksForService(reg.serviceId)];
      if response.QueryThrew? {
        return Failure(ConsulException);
      }
      var checks := response.checks;
      var i := 0;
      while i < |checks|
        invariant 0 <= i <= |checks|
        invariant forall j :: 0 <= j < i ==>
          !(checks[j].serviceId == reg.instanceId && EqualsIgnoreCase(checks[j].name, MAINTENANCE_CHECK_NAME))
      {
        if checks[i].serviceId == reg.instanceId {
          if EqualsIgnoreCase(checks[i].name, MAINTENANCE_CHECK_NAME) {
            return Success(OUT_OF_SERVICE);
          }
        }
        i := i + 1;
      }
      return Success(UP);
    }
  }
}

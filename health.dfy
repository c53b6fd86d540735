/** The health-status dict and the two operations that derive it from the
    configuration: the health endpoint and the startup check. */
module Health {
  import opened Config
  import opened Text
  import opened Http

  /** How the startup hook ends: the server starts, or startup is aborted by
      a ValueError with the given text. */
  datatype StartupOutcome = Started | Aborted(error: string)

  /** Builds, one `append` at a time, the list of missing variables the
      startup hook reports; it agrees with the health endpoint's filter. */
  method CollectMissingVars(env: Env) returns (missingVars: seq<string>)
    ensures missingVars == MissingRequired(env)
  {
    missingVars := [];
    if !IsSet(env, ApiKeyVar) { missingVars := missingVars + [ApiKeyVar]; }
    if !IsSet(env, SubaccountVar) { missingVars := missingVars + [SubaccountVar]; }
    if !IsSet(env, ForwardedVar) { missingVars := missingVars + [ForwardedVar]; }
    MissingRequiredInOrder(env);
  }

  class HealthMonitor {
    /** The process-wide health-status dict. */
    var health: map<string, HealthValue>

    constructor ()
      ensures health == map["status" := Text("starting")]
    {
      health := map["status" := Text("starting")];
    }

    /** The health endpoint: 503 "misconfigured" with the missing variables
        when any required variable is unset, otherwise 200 "healthy".  Becoming
        healthy only overwrites `status`; any other key stays. */
    method Check(env: Env) returns (r: Response)
      modifies this
      ensures MissingRequired(env) != [] ==>
        && health == old(health)["status" := Text("misconfigured")]["missing_vars" := Names(MissingRequired(env))]
        && r == Response(503, HealthReport(health))
      ensures MissingRequired(env) == [] ==>
        && health == old(health)["status" := Text("healthy")]
        && r == Response(200, HealthReport(health))
    {
      var missingVars := MissingRequired(env);
      if missingVars != [] {
        health := health["status" := Text("misconfigured")];
        health := health["missing_vars" := Names(missingVars)];
        return Response(503, HealthReport(health));
      }
      health := health["status" := Text("healthy")];
      r := Response(200, HealthReport(health));
    }

    /** The startup hook: aborts, naming every missing variable, when the
        configuration is incomplete; otherwise marks the process healthy. */
    method Startup(env: Env) returns (outcome: StartupOutcome)
      modifies this
      ensures outcome.Aborted? <==> MissingRequired(env) != []
      ensures outcome.Aborted? ==>
        && outcome.error == "Missing required environment variables: " + Join(MissingRequired(env), ", ")
        && health == old(health)
      ensures outcome.Started? ==> health == old(health)["status" := Text("healthy")]
    {
      var missingVars := CollectMissingVars(env);
      if missingVars != [] {
        return Aborted("Missing required environment variables: " + Join(missingVars, ", "));
      }
      health := health["status" := Text("healthy")];
      outcome := Started;
    }
  }

  /** A misconfigured check followed by a healthy one: the second report says
      "healthy" yet still carries the `missing_vars` of the first. */
  method StaleMissingVars(broken: Env, fixed: Env) returns (first: Response, second: Response)
    requires MissingRequired(broken) != [] && MissingRequired(fixed) == []
    ensures first.code == 503 && second.code == 200
    ensures second.body.HealthReport? && "status" in second.body.fields && second.body.fields["status"] == Text("healthy")
    ensures "missing_vars" in second.body.fields
      && second.body.fields["missing_vars"] == Names(MissingRequired(broken))
  {
    var monitor := new HealthMonitor();
    first := monitor.Check(broken);
    second := monitor.Check(fixed);
  }
}

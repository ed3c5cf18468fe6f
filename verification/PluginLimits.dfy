/**
 Limits of a plugin call. A tool declares limits, a requirement narrows the tool, a grant narrows the
 requirement; the limits in force are the tool's, overridden by what the grant declares.
 */
module PluginLimits {
  import opened Prelude

  datatype Limit =
    | TimeoutMs | MaxResponseBytes | MaxRecords | MaxInvocationsPerRun | MaximumBytesBilled | MaxEstimatedCostUsd

  const LIMITS: seq<Limit> :=
    [TimeoutMs, MaxResponseBytes, MaxRecords, MaxInvocationsPerRun, MaximumBytesBilled, MaxEstimatedCostUsd]

  /** The limits without which no set of limits is complete. */
  const MANDATORY: set<Limit> := {TimeoutMs, MaxResponseBytes, MaxInvocationsPerRun}

  /** An optional limit that is not declared has no entry. */
  type Limits = map<Limit, real>

  datatype Effect = Read | Write | Destructive

  datatype Tool = Tool(name: string, effect: Effect, limits: Limits)

  /** `plugin` stands for installation, version and digest. */
  datatype Scope = Scope(plugin: string, tool: string, effect: Effect, limits: Limits)

  datatype Error = ScopeMismatch | LimitInvalid | LimitEscalation | RequirementMismatch | RequirementBroadened

  predicate Complete(limits: Limits) {
    forall k :: k in MANDATORY ==> k in limits
  }

  lemma EveryLimitListed(k: Limit)
    ensures k in LIMITS
  {
    match k
    case TimeoutMs => assert LIMITS[0] == k;
    case MaxResponseBytes => assert LIMITS[1] == k;
    case MaxRecords => assert LIMITS[2] == k;
    case MaxInvocationsPerRun => assert LIMITS[3] == k;
    case MaximumBytesBilled => assert LIMITS[4] == k;
    case MaxEstimatedCostUsd => assert LIMITS[5] == k;
  }

  /** At one limit, what the scope declares is non-negative and no more than the tool declares. */
  predicate NarrowsAt(tool: Limits, scope: Limits, k: Limit) {
    && (k in tool ==> tool[k] >= 0.0)
    && (k in scope ==> scope[k] >= 0.0 && k in tool && scope[k] <= tool[k])
  }

  predicate NarrowsTool(tool: Tool, scope: Scope) {
    && scope.tool == tool.name && scope.effect == tool.effect
    && forall k :: NarrowsAt(tool.limits, scope.limits, k)
  }

  /** The limits in force. */
  function Effective(tool: Limits, scope: Limits): Limits {
    map k | k in tool :: if k in scope then scope[k] else tool[k]
  }

  method AssertScopeNarrowsTool(tool: Tool, scope: Scope) returns (result: Result<Limits, Error>)
    ensures result.Success? <==> NarrowsTool(tool, scope)
    ensures result.Success? ==> result.value == Effective(tool.limits, scope.limits)
  {
    if scope.tool != tool.name || scope.effect != tool.effect {
      return Failure(ScopeMismatch);
    }
    var effective := tool.limits;
    for i := 0 to |LIMITS|
      invariant forall j :: 0 <= j < i ==> NarrowsAt(tool.limits, scope.limits, LIMITS[j])
      invariant effective.Keys == tool.limits.Keys
      invariant forall k :: k in effective ==>
                  effective[k] == if k in LIMITS[..i] && k in scope.limits then scope.limits[k] else tool.limits[k]
    {
      var k := LIMITS[i];
      if k in tool.limits && tool.limits[k] < 0.0 {
        assert !NarrowsAt(tool.limits, scope.limits, k);
        return Failure(LimitInvalid);
      }
      if k in scope.limits {
        if scope.limits[k] < 0.0 {
          assert !NarrowsAt(tool.limits, scope.limits, k);
          return Failure(LimitInvalid);
        }
        if k !in tool.limits || scope.limits[k] > tool.limits[k] {
          assert !NarrowsAt(tool.limits, scope.limits, k);
          return Failure(LimitEscalation);
        }
        effective := effective[k := scope.limits[k]];
      }
    }
    forall k ensures NarrowsAt(tool.limits, scope.limits, k) && k in LIMITS {
      EveryLimitListed(k);
      var j :| 0 <= j < |LIMITS| && LIMITS[j] == k;
    }
    assert LIMITS[..|LIMITS|] == LIMITS;
    return Success(effective);
  }

  predicate WithinAt(grant: Limits, requirement: Limits, k: Limit) {
    k in grant ==> k in requirement && grant[k] <= requirement[k]
  }

  predicate NarrowsRequirement(grant: Scope, requirement: Scope) {
    && grant.plugin == requirement.plugin && grant.tool == requirement.tool && grant.effect == requirement.effect
    && forall k :: WithinAt(grant.limits, requirement.limits, k)
  }

  method AssertGrantNarrowsRequirement(grant: Scope, requirement: Scope) returns (failure: Option<Error>)
    ensures failure.None? <==> NarrowsRequirement(grant, requirement)
  {
    if grant.plugin != requirement.plugin || grant.tool != requirement.tool || grant.effect != requirement.effect {
      return Some(RequirementMismatch);
    }
    for i := 0 to |LIMITS|
      invariant forall j :: 0 <= j < i ==> WithinAt(grant.limits, requirement.limits, LIMITS[j])
    {
      var k := LIMITS[i];
      if k in grant.limits && (k !in requirement.limits || grant.limits[k] > requirement.limits[k]) {
        assert !WithinAt(grant.limits, requirement.limits, k);
        return Some(RequirementBroadened);
      }
    }
    forall k ensures WithinAt(grant.limits, requirement.limits, k) {
      EveryLimitListed(k);
      var j :| 0 <= j < |LIMITS| && LIMITS[j] == k;
    }
    return None;
  }

  // ---------------------------------------------------------------------------
  // What the three checks guarantee together
  // ---------------------------------------------------------------------------

  predicate Authorized(tool: Tool, requirement: Scope, grant: Scope) {
    NarrowsTool(tool, requirement) && NarrowsRequirement(grant, requirement) && NarrowsTool(tool, grant)
  }

  predicate WithinRequirement(limits: Limits, requirement: Limits) {
    forall k :: k in requirement ==> k in limits && limits[k] <= requirement[k]
  }

  /**
   The limits in force stay within the requirement exactly when the grant declares every limit that
   the requirement sets below the tool's.
   */
  lemma WithinRequirementWhenDeclared(tool: Tool, requirement: Scope, grant: Scope)
    requires Authorized(tool, requirement, grant)
    ensures WithinRequirement(Effective(tool.limits, grant.limits), requirement.limits) <==>
              forall k :: k in requirement.limits && k in tool.limits && requirement.limits[k] < tool.limits[k] ==>
                k in grant.limits
  {
    var effective := Effective(tool.limits, grant.limits);
    forall k | k in requirement.limits ensures k in tool.limits && requirement.limits[k] <= tool.limits[k] {
      assert NarrowsAt(tool.limits, requirement.limits, k);
    }
    forall k | k in grant.limits ensures k in requirement.limits && grant.limits[k] <= requirement.limits[k] {
      assert WithinAt(grant.limits, requirement.limits, k);
    }
  }

  /** Mandatory limits, and all that the grant declares, never exceed the requirement or the tool. */
  lemma DeclaredLimitsHold(tool: Tool, requirement: Scope, grant: Scope, k: Limit)
    requires Authorized(tool, requirement, grant) && Complete(grant.limits)
    requires k in MANDATORY || k in grant.limits
    ensures k in Effective(tool.limits, grant.limits) && k in requirement.limits && k in tool.limits
    ensures Effective(tool.limits, grant.limits)[k] <= requirement.limits[k] <= tool.limits[k]
  {
    assert WithinAt(grant.limits, requirement.limits, k);
    assert NarrowsAt(tool.limits, requirement.limits, k);
  }

  /** An optional limit that the requirement tightens and the grant omits falls back to the tool's. */
  lemma OmittedLimitBroadens() returns (tool: Tool, requirement: Scope, grant: Scope)
    ensures Authorized(tool, requirement, grant) && Complete(grant.limits)
    ensures !WithinRequirement(Effective(tool.limits, grant.limits), requirement.limits)
  {
    var mandatory: Limits := map[TimeoutMs := 1.0, MaxResponseBytes := 1.0, MaxInvocationsPerRun := 1.0];
    tool := Tool("query", Read, mandatory[MaxRecords := 100.0]);
    requirement := Scope("plugin", "query", Read, mandatory[MaxRecords := 10.0]);
    grant := Scope("plugin", "query", Read, mandatory);
    assert Effective(tool.limits, grant.limits)[MaxRecords] == 100.0;
  }
}

/**
 * `getTools` (src/utils/util.ts): the action registry answers with a map from
 * integration name to the actions of that integration; the tool list is that
 * map flattened, one tool per action, integration by integration.
 */
module ToolRegistry {
  import opened Wrappers
  import opened JsObject
  import opened Json

  /** An `ExtendedTool`. `integrationId` is `None` where the source leaves it `undefined`. */
  datatype Tool = Tool(
    name: string,
    description: string,
    integrationName: string,
    integrationId: Option<string>,
    requiredFields: Option<Json>,
    isOpenApiTool: bool,
    inputSchema: Json)

  /** The `function` part of one registry action. */
  datatype RegistryAction = RegistryAction(name: string, description: string, parameters: Json)

  /** `actionPayload.actions`: integration names in key order, each with its actions. */
  type Registry = Object<seq<RegistryAction>>

  datatype RegistryError =
    | NoActions        // the payload was `null` (a failed `getActions`): reading `.actions` throws
    | NullParameters   // an action whose `parameters` is `null`: reading `.required` throws

  /** The tool made from one action of `integration`. */
  function ActionTool(integration: string, a: RegistryAction): Tool {
    Tool(a.name, a.description, integration, None, Member(a.parameters, "required"), false, a.parameters)
  }

  function IntegrationTools(integration: string, actions: seq<RegistryAction>): (r: seq<Tool>)
    ensures |r| == |actions| && forall j :: 0 <= j < |actions| ==> r[j] == ActionTool(integration, actions[j])
  {
    seq(|actions|, j requires 0 <= j < |actions| => ActionTool(integration, actions[j]))
  }

  /** The registry flattened, integration by integration. */
  function Flatten(reg: Registry): seq<Tool>
    decreases |reg|
  {
    if |reg| == 0 then []
    else Flatten(reg[..|reg| - 1]) + IntegrationTools(reg[|reg| - 1].0, reg[|reg| - 1].1)
  }

  predicate NoNullParameters(reg: Registry) {
    forall i, j :: 0 <= i < |reg| && 0 <= j < |reg[i].1| ==> reg[i].1[j].parameters != JNull
  }

  /** What `getTools` returns or throws for a registry answer (`None` for `null`). */
  function RegistryTools(payload: Option<Registry>): Result<seq<Tool>, RegistryError> {
    if payload.None? then Failure(NoActions)
    else if !NoNullParameters(payload.value) then Failure(NullParameters)
    else Success(Flatten(payload.value))
  }

  /** `getTools`, as the nested loops of the source. */
  method GetTools(payload: Option<Registry>) returns (r: Result<seq<Tool>, RegistryError>)
    ensures r == RegistryTools(payload)
  {
    if payload.None? {
      return Failure(NoActions);
    }
    var reg := payload.value;
    var tools: seq<Tool> := [];
    var i := 0;
    while i < |reg|
      invariant 0 <= i <= |reg|
      invariant NoNullParameters(reg[..i])
      invariant tools == Flatten(reg[..i])
    {
      var integration := reg[i].0;
      var actions := reg[i].1;
      var j := 0;
      while j < |actions|
        invariant 0 <= j <= |actions|
        invariant forall j' :: 0 <= j' < j ==> actions[j'].parameters != JNull
        invariant tools == Flatten(reg[..i]) + IntegrationTools(integration, actions[..j])
      {
        var action := actions[j];
        if action.parameters == JNull {
          assert reg[i].1[j].parameters == JNull;
          return Failure(NullParameters);
        }
        var tool := Tool(action.name, action.description, integration, None,
                         Member(action.parameters, "required"), false, action.parameters);
        tools := tools + [tool];
        j := j + 1;
        assert IntegrationTools(integration, actions[..j])
            == IntegrationTools(integration, actions[..j - 1]) + [tool];
      }
      assert actions[..j] == actions;
      assert reg[..i + 1][..i] == reg[..i];
      assert NoNullParameters(reg[..i + 1]) by {
        var done := reg[..i + 1];
        forall i', j' | 0 <= i' < |done| && 0 <= j' < |done[i'].1|
          ensures done[i'].1[j'].parameters != JNull
        {
          if i' < i {
            assert done[i'] == reg[..i][i'];
          }
        }
      }
      i := i + 1;
    }
    assert reg[..i] == reg;
    return Success(tools);
  }

  /** The number of actions in the registry. */
  function ActionCount(reg: Registry): nat
    decreases |reg|
  {
    if |reg| == 0 then 0 else ActionCount(reg[..|reg| - 1]) + |reg[|reg| - 1].1|
  }

  lemma {:induction false} FlattenLength(reg: Registry)
    ensures |Flatten(reg)| == ActionCount(reg)
    decreases |reg|
  {
    if |reg| > 0 {
      FlattenLength(reg[..|reg| - 1]);
    }
  }

  /**
   * One tool per action, in integration-key then action order: the `j`-th
   * action of the `i`-th integration is the tool at the position after all
   * actions of the integrations before it.
   */
  lemma {:induction false} FlattenAt(reg: Registry, i: int, j: int)
    requires 0 <= i < |reg| && 0 <= j < |reg[i].1|
    ensures ActionCount(reg[..i]) + j < |Flatten(reg)|
    ensures Flatten(reg)[ActionCount(reg[..i]) + j] == ActionTool(reg[i].0, reg[i].1[j])
    decreases |reg|
  {
    var n := |reg| - 1;
    var init := reg[..n];
    var last := IntegrationTools(reg[n].0, reg[n].1);
    FlattenLength(init);
    assert Flatten(reg) == Flatten(init) + last;
    if i < n {
      assert reg[..i] == init[..i];
      assert reg[i] == init[i];
      FlattenAt(init, i, j);
    } else {
      assert reg[..i] == init;
    }
  }

  /** Every tool of the list is a registry tool: not an OpenAPI tool, of a listed integration, its required fields read from its schema. */
  lemma {:induction false} FlattenToolShape(reg: Registry, t: Tool)
    requires t in Flatten(reg)
    ensures !t.isOpenApiTool
    ensures t.integrationName in Keys(reg)
    ensures t.requiredFields == Member(t.inputSchema, "required")
    ensures t.integrationId == None
    decreases |reg|
  {
    var n := |reg| - 1;
    if t in Flatten(reg[..n]) {
      FlattenToolShape(reg[..n], t);
      assert Keys(reg[..n]) == Keys(reg)[..n];
    } else {
      var j :| 0 <= j < |reg[n].1| && IntegrationTools(reg[n].0, reg[n].1)[j] == t;
      assert Keys(reg)[n] == reg[n].0;
    }
  }

  /** A null `getActions` answer, or a null parameter schema, makes `getTools` throw; otherwise it succeeds. */
  lemma RegistryToolsErrors(payload: Option<Registry>)
    ensures RegistryTools(payload).Failure? <==> payload.None? || !NoNullParameters(payload.value)
    ensures payload.None? ==> RegistryTools(payload) == Failure(NoActions)
  {
  }
}

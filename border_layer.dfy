/** The border cost layer of the mesh map: a per-vertex cost map, the set of lethal vertices
    derived from it, and the layer's runtime configuration. */
module MeshLayers {
  import opened Wrappers

  /** Vertices are identified by their index in the mesh. */
  type VertexHandle = nat

  /** A dense per-vertex attribute map of border costs. */
  type CostMap = map<VertexHandle, real>

  /** The layer's configuration: the lethal threshold, the cost assigned to border vertices
      and the weight of the layer in the combined cost. */
  datatype BorderConfig = BorderConfig(threshold: real, borderCost: real, factor: real)

  /** One parameter of a reconfiguration batch, as a name and a floating-point value. */
  datatype Parameter = Parameter(name: string, value: real)

  datatype SetParametersResult = SetParametersResult(successful: bool, reason: string)

  /** The three configuration fields that can be reconfigured at runtime. */
  datatype ConfigField = ThresholdField | BorderCostField | FactorField

  /** Namespace under which the mesh map declares every layer's parameters. */
  const MeshMapNamespace: string := "mesh_map"

  function Suffix(f: ConfigField): string
  {
    match f
    case ThresholdField => ".threshold"
    case BorderCostField => ".border_cost"
    case FactorField => ".factor"
  }

  /** The full parameter name of a field of the layer called `layerName`. */
  function ParameterName(layerName: string, f: ConfigField): string
  {
    MeshMapNamespace + "." + layerName + Suffix(f)
  }

  function FieldValue(cfg: BorderConfig, f: ConfigField): real
  {
    match f
    case ThresholdField => cfg.threshold
    case BorderCostField => cfg.borderCost
    case FactorField => cfg.factor
  }

  /** The vertices whose border cost lies strictly above the threshold. */
  function LethalsOf(costs: CostMap, threshold: real): set<VertexHandle>
  {
    set v | v in costs && costs[v] > threshold
  }

  /** The effect of one parameter on the configuration: a recognised name overwrites its
      field, any other name is ignored. */
  function ApplyParameter(layerName: string, cfg: BorderConfig, p: Parameter): BorderConfig
  {
    if p.name == ParameterName(layerName, ThresholdField) then cfg.(threshold := p.value)
    else if p.name == ParameterName(layerName, BorderCostField) then cfg.(borderCost := p.value)
    else if p.name == ParameterName(layerName, FactorField) then cfg.(factor := p.value)
    else cfg
  }

  /** The configuration after applying a whole batch in order. */
  function ApplyParameters(layerName: string, cfg: BorderConfig, ps: seq<Parameter>): BorderConfig
  {
    if ps == [] then cfg
    else ApplyParameter(layerName, ApplyParameters(layerName, cfg, ps[..|ps| - 1]), ps[|ps| - 1])
  }

  /** Whether the batch holds a parameter for field `f`. */
  predicate Mentions(layerName: string, ps: seq<Parameter>, f: ConfigField)
  {
    exists j | 0 <= j < |ps| :: ps[j].name == ParameterName(layerName, f)
  }

  lemma ParameterNamesDistinct(layerName: string, f: ConfigField, g: ConfigField)
    requires f != g
    ensures ParameterName(layerName, f) != ParameterName(layerName, g)
  {
    assert |ParameterName(layerName, f)| != |ParameterName(layerName, g)|;
  }

  /** Applying one parameter changes field `f` exactly when the parameter is named for `f`. */
  lemma ApplyParameterField(layerName: string, cfg: BorderConfig, p: Parameter, f: ConfigField)
    ensures FieldValue(ApplyParameter(layerName, cfg, p), f)
            == if p.name == ParameterName(layerName, f) then p.value else FieldValue(cfg, f)
  {
  }

  /** A field the batch does not name keeps its value. */
  lemma {:induction false} UnmentionedFieldUnchanged(layerName: string, cfg: BorderConfig, ps: seq<Parameter>, f: ConfigField)
    requires !Mentions(layerName, ps, f)
    ensures FieldValue(ApplyParameters(layerName, cfg, ps), f) == FieldValue(cfg, f)
  {
    if ps != [] {
      var init := ps[..|ps| - 1];
      assert !Mentions(layerName, init, f) by {
        forall j | 0 <= j < |init| ensures init[j].name != ParameterName(layerName, f) {
          assert init[j] == ps[j];
        }
      }
      UnmentionedFieldUnchanged(layerName, cfg, init, f);
      ApplyParameterField(layerName, ApplyParameters(layerName, cfg, init), ps[|ps| - 1], f);
    }
  }

  /** When a field is named several times in one batch, the last value wins. */
  lemma {:induction false} LastParameterWins(layerName: string, cfg: BorderConfig, ps: seq<Parameter>, f: ConfigField, i: nat)
    requires i < |ps| && ps[i].name == ParameterName(layerName, f)
    requires forall j | i < j < |ps| :: ps[j].name != ParameterName(layerName, f)
    ensures FieldValue(ApplyParameters(layerName, cfg, ps), f) == ps[i].value
  {
    var init := ps[..|ps| - 1];
    ApplyParameterField(layerName, ApplyParameters(layerName, cfg, init), ps[|ps| - 1], f);
    if i < |ps| - 1 {
      LastParameterWins(layerName, cfg, init, f, i);
    }
  }

  /** A batch that names none of the three fields leaves the configuration as it was. */
  lemma IrrelevantBatchIgnored(layerName: string, cfg: BorderConfig, ps: seq<Parameter>)
    requires forall f: ConfigField :: !Mentions(layerName, ps, f)
    ensures ApplyParameters(layerName, cfg, ps) == cfg
  {
    UnmentionedFieldUnchanged(layerName, cfg, ps, ThresholdField);
    UnmentionedFieldUnchanged(layerName, cfg, ps, BorderCostField);
    UnmentionedFieldUnchanged(layerName, cfg, ps, FactorField);
  }

  class BorderLayer {
    const layerName: string
    var config: BorderConfig
    var borderCosts: CostMap
    var lethalVertices: set<VertexHandle>
    /** How often the layer has notified the mesh map of a change. */
    var changeNotifications: nat

    /** The lethal set is the one derived from the current costs and threshold. */
    ghost predicate Valid()
      reads this
    {
      lethalVertices == LethalsOf(borderCosts, config.threshold)
    }

    constructor (name: string, initial: BorderConfig)
      ensures layerName == name && config == initial
      ensures borderCosts == map[] && lethalVertices == {} && changeNotifications == 0
      ensures Valid()
    {
      layerName := name;
      config := initial;
      borderCosts := map[];
      lethalVertices := {};
      changeNotifications := 0;
    }

    /** Discards the lethal set and refills it with every vertex whose cost lies strictly
        above the threshold; a vertex whose cost equals the threshold is not lethal. */
    method ComputeLethals() returns (ok: bool)
      modifies this`lethalVertices
      ensures ok
      ensures forall v :: v in lethalVertices <==> v in borderCosts && borderCosts[v] > config.threshold
      ensures Valid()
    {
      lethalVertices := {};
      var todo := borderCosts.Keys;
      while todo != {}
        invariant todo <= borderCosts.Keys
        invariant forall v :: v in lethalVertices <==> v in borderCosts && v !in todo && borderCosts[v] > config.threshold
        decreases todo
      {
        var vH :| vH in todo;
        if borderCosts[vH] > config.threshold {
          lethalVertices := lethalVertices + {vH};
        }
        todo := todo - {vH};
      }
      ok := true;
    }

    /** Loads the costs stored under the "border" attribute of the map file. Without that
        attribute nothing changes and the result is false. */
    method ReadLayer(storedBorder: Option<CostMap>) returns (ok: bool)
      modifies this`borderCosts, this`lethalVertices
      ensures ok <==> storedBorder.Some?
      ensures ok ==> borderCosts == storedBorder.value && Valid()
      ensures !ok ==> borderCosts == old(borderCosts) && lethalVertices == old(lethalVertices)
    {
      if storedBorder.Some? {
        borderCosts := storedBorder.value;
        ok := ComputeLethals();
        return;
      }
      ok := false;
    }

    /** Replaces the costs by those computed from the mesh with the configured border cost,
        then derives the lethal set from them. */
    method ComputeLayer(calcBorderCosts: real -> CostMap) returns (ok: bool)
      modifies this`borderCosts, this`lethalVertices
      ensures ok
      ensures borderCosts == calcBorderCosts(config.borderCost)
      ensures Valid()
    {
      borderCosts := calcBorderCosts(config.borderCost);
      ok := ComputeLethals();
    }

    method Threshold() returns (t: real)
      ensures t == config.threshold
    {
      t := config.threshold;
    }

    method Costs() returns (costs: CostMap)
      ensures costs == borderCosts
    {
      costs := borderCosts;
    }

    method NotifyChange()
      modifies this`changeNotifications
      ensures changeNotifications == old(changeNotifications) + 1
    {
      changeNotifications := changeNotifications + 1;
    }

    /** Applies a batch of parameters. The batch always succeeds; the lethal set is rebuilt,
        and a change notified, exactly when the batch holds a threshold parameter. */
    method ReconfigureCallback(parameters: seq<Parameter>) returns (result: SetParametersResult)
      modifies this`config, this`lethalVertices, this`changeNotifications
      ensures result.successful
      ensures config == ApplyParameters(layerName, old(config), parameters)
      ensures Mentions(layerName, parameters, ThresholdField) ==>
                Valid() && changeNotifications == old(changeNotifications) + 1
      ensures !Mentions(layerName, parameters, ThresholdField) ==>
                config.threshold == old(config.threshold)
                && lethalVertices == old(lethalVertices)
                && changeNotifications == old(changeNotifications)
      ensures old(Valid()) ==> Valid()
    {
      result := SetParametersResult(true, "");
      var hasThresholdChanged := false;
      for i := 0 to |parameters|
        invariant config == ApplyParameters(layerName, old(config), parameters[..i])
        invariant hasThresholdChanged <==> Mentions(layerName, parameters[..i], ThresholdField)
        invariant lethalVertices == old(lethalVertices)
        invariant changeNotifications == old(changeNotifications)
      {
        var parameter := parameters[i];
        assert parameters[..i + 1][..i] == parameters[..i];
        if parameter.name == ParameterName(layerName, ThresholdField) {
          config := config.(threshold := parameter.value);
          hasThresholdChanged := true;
        } else if parameter.name == ParameterName(layerName, BorderCostField) {
          config := config.(borderCost := parameter.value);
        } else if parameter.name == ParameterName(layerName, FactorField) {
          config := config.(factor := parameter.value);
        }
        assert Mentions(layerName, parameters[..i + 1], ThresholdField)
               <==> Mentions(layerName, parameters[..i], ThresholdField) || parameter.name == ParameterName(layerName, ThresholdField)
        by {
          if Mentions(layerName, parameters[..i + 1], ThresholdField) && parameter.name != ParameterName(layerName, ThresholdField) {
            var j :| 0 <= j < i + 1 && parameters[..i + 1][j].name == ParameterName(layerName, ThresholdField);
            assert parameters[..i][j] == parameters[j];
          }
          if Mentions(layerName, parameters[..i], ThresholdField) {
            var j :| 0 <= j < i && parameters[..i][j].name == ParameterName(layerName, ThresholdField);
            assert parameters[..i + 1][j] == parameters[j];
          }
          if parameter.name == ParameterName(layerName, ThresholdField) {
            assert parameters[..i + 1][i] == parameter;
          }
        }
      }
      assert parameters[..|parameters|] == parameters;
      if hasThresholdChanged {
        var _ := ComputeLethals();
        NotifyChange();
      } else {
        UnmentionedFieldUnchanged(layerName, old(config), parameters, ThresholdField);
      }
    }
  }
}

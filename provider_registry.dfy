/** The provider registry (ai_service/app/llm_providers/__init__.py): one
    instance per provider class, in a fixed order, skipping every class
    whose constructor raises. */
module ProviderRegistry {
  import opened Providers

  /** The provider classes, in the order the registry tries them. */
  const PROVIDER_CLASSES: seq<ProviderKind> := [DeepSeek, SiliconFlow, VolcEngine]

  /** The service settings each provider class reads. */
  datatype Settings = Settings(
    deepSeek: ProviderSettings, siliconFlow: ProviderSettings, volcEngine: ProviderSettings)

  function SettingsFor(cfg: Settings, k: ProviderKind): ProviderSettings {
    match k
    case DeepSeek => cfg.deepSeek
    case SiliconFlow => cfg.siliconFlow
    case VolcEngine => cfg.volcEngine
  }

  /** Position of a class in `PROVIDER_CLASSES`. */
  function Rank(k: ProviderKind): nat {
    match k
    case DeepSeek => 0
    case SiliconFlow => 1
    case VolcEngine => 2
  }

  /** The instance one class contributes: none when its constructor raises. */
  function Instance(k: ProviderKind, cfg: Settings, raises: set<ProviderKind>): seq<Provider> {
    if k in raises then [] else [NewProvider(k, SettingsFor(cfg, k))]
  }

  /** The instances built from `classes`, in order. */
  function Built(classes: seq<ProviderKind>, cfg: Settings, raises: set<ProviderKind>): seq<Provider>
    decreases |classes|
  {
    if |classes| == 0 then []
    else Built(classes[..|classes| - 1], cfg, raises) + Instance(classes[|classes| - 1], cfg, raises)
  }

  /** The number of classes whose constructor succeeds. */
  function Successes(classes: seq<ProviderKind>, raises: set<ProviderKind>): nat
    decreases |classes|
  {
    if |classes| == 0 then 0
    else Successes(classes[..|classes| - 1], raises) + (if classes[|classes| - 1] in raises then 0 else 1)
  }

  /** `get_provider_instances`. */
  method GetProviderInstances(cfg: Settings, raises: set<ProviderKind>) returns (instances: seq<Provider>)
    ensures instances == Built(PROVIDER_CLASSES, cfg, raises)
  {
    instances := [];
    for i := 0 to |PROVIDER_CLASSES|
      invariant instances == Built(PROVIDER_CLASSES[..i], cfg, raises)
    {
      var k := PROVIDER_CLASSES[i];
      assert PROVIDER_CLASSES[..i + 1][..i] == PROVIDER_CLASSES[..i];
      if k !in raises {
        instances := instances + [NewProvider(k, SettingsFor(cfg, k))];
      }
    }
    assert PROVIDER_CLASSES[..|PROVIDER_CLASSES|] == PROVIDER_CLASSES;
  }

  /** One instance per successful construction. */
  lemma {:induction false} BuiltLength(classes: seq<ProviderKind>, cfg: Settings, raises: set<ProviderKind>)
    ensures |Built(classes, cfg, raises)| == Successes(classes, raises) <= |classes|
    decreases |classes|
  {
    if |classes| > 0 {
      BuiltLength(classes[..|classes| - 1], cfg, raises);
    }
  }

  /** Each instance comes from a listed class that constructs, and holds
      that class's settings unchanged. */
  lemma {:induction false} BuiltEntries(classes: seq<ProviderKind>, cfg: Settings, raises: set<ProviderKind>)
    ensures forall i :: 0 <= i < |Built(classes, cfg, raises)| ==>
      Built(classes, cfg, raises)[i].kind in classes && Built(classes, cfg, raises)[i].kind !in raises &&
      Built(classes, cfg, raises)[i] == NewProvider(Built(classes, cfg, raises)[i].kind, SettingsFor(cfg, Built(classes, cfg, raises)[i].kind))
    decreases |classes|
  {
    if |classes| > 0 {
      var init := classes[..|classes| - 1];
      BuiltEntries(init, cfg, raises);
      var b0 := Built(init, cfg, raises);
      var b := Built(classes, cfg, raises);
      assert b == b0 + Instance(classes[|classes| - 1], cfg, raises);
      forall i | 0 <= i < |b0| ensures b[i].kind in classes {
        assert b[i] == b0[i];
        assert b0[i].kind in init;
      }
    }
  }

  /** Every class that constructs contributes an instance. */
  lemma {:induction false} BuiltComplete(classes: seq<ProviderKind>, cfg: Settings, raises: set<ProviderKind>, k: ProviderKind)
    requires k in classes && k !in raises
    ensures exists i :: 0 <= i < |Built(classes, cfg, raises)| && Built(classes, cfg, raises)[i].kind == k
    decreases |classes|
  {
    var init := classes[..|classes| - 1];
    var last := classes[|classes| - 1];
    var b0 := Built(init, cfg, raises);
    var b := Built(classes, cfg, raises);
    assert b == b0 + Instance(last, cfg, raises);
    if k == last {
      assert b[|b| - 1].kind == k;
    } else {
      assert classes == init + [last];
      BuiltComplete(init, cfg, raises, k);
      var i :| 0 <= i < |b0| && b0[i].kind == k;
      assert b[i] == b0[i];
    }
  }

  /** Classes listed in strictly increasing rank give instances in strictly
      increasing rank: order is kept and no class appears twice. */
  lemma {:induction false} BuiltKeepsOrder(classes: seq<ProviderKind>, cfg: Settings, raises: set<ProviderKind>)
    requires forall i, j :: 0 <= i < j < |classes| ==> Rank(classes[i]) < Rank(classes[j])
    ensures forall i, j :: 0 <= i < j < |Built(classes, cfg, raises)| ==>
      Rank(Built(classes, cfg, raises)[i].kind) < Rank(Built(classes, cfg, raises)[j].kind)
    decreases |classes|
  {
    if |classes| > 0 {
      var init := classes[..|classes| - 1];
      var last := classes[|classes| - 1];
      BuiltKeepsOrder(init, cfg, raises);
      BuiltEntries(init, cfg, raises);
      var b0 := Built(init, cfg, raises);
      forall i | 0 <= i < |b0| ensures Rank(b0[i].kind) < Rank(last) {
        var k := b0[i].kind;
        var j :| 0 <= j < |init| && init[j] == k;
        assert classes[j] == k;
      }
    }
  }

  /** The registry: at most three instances, one per class that constructs,
      in the fixed class order. */
  lemma RegistryShape(cfg: Settings, raises: set<ProviderKind>)
    ensures |Built(PROVIDER_CLASSES, cfg, raises)| == Successes(PROVIDER_CLASSES, raises) <= 3
    ensures forall i, j :: 0 <= i < j < |Built(PROVIDER_CLASSES, cfg, raises)| ==>
      Rank(Built(PROVIDER_CLASSES, cfg, raises)[i].kind) < Rank(Built(PROVIDER_CLASSES, cfg, raises)[j].kind)
    ensures forall k :: k !in raises <==>
      exists i :: 0 <= i < |Built(PROVIDER_CLASSES, cfg, raises)| && Built(PROVIDER_CLASSES, cfg, raises)[i].kind == k
  {
    BuiltLength(PROVIDER_CLASSES, cfg, raises);
    BuiltEntries(PROVIDER_CLASSES, cfg, raises);
    forall k | k !in raises
      ensures exists i :: 0 <= i < |Built(PROVIDER_CLASSES, cfg, raises)| && Built(PROVIDER_CLASSES, cfg, raises)[i].kind == k
    {
      assert PROVIDER_CLASSES[Rank(k)] == k;
      BuiltComplete(PROVIDER_CLASSES, cfg, raises, k);
    }
    BuiltKeepsOrder(PROVIDER_CLASSES, cfg, raises);
  }
}

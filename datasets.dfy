/**
 * The dataset descriptors: the base `DataSet` class, its four ImageNet-family variants
 * with their default keyword arguments, the architecture request each variant's
 * `get_model` makes, and the `DATASETS` name-to-constructor table.
 */
module Datasets {
  import opened Wrappers
  import opened PyValues
  import opened DatasetArgs

  /** The Python class of a descriptor: the base class or one of its subclasses. */
  datatype Variant = Base | ImageNet | Places365 | RestrictedImageNet | CustomImageNet {
    /** The variants whose labels are regrouped by a label mapping. */
    predicate RemapsLabels()
    {
      this == RestrictedImageNet || this == CustomImageNet
    }
  }

  /** The `ds_name` each variant's constructor passes to `DataSet.__init__`. */
  function DsName(v: Variant): (name: string)
    requires v != Base
    ensures name in DatasetRegistry() <==> v != Places365
    ensures name in DatasetRegistry() ==> DatasetRegistry()[name] == v
  {
    match v
    case ImageNet => "imagenet"
    case Places365 => "places365"
    case RestrictedImageNet => "restricted_imagenet"
    case CustomImageNet => "custom_imagenet"
  }

  /**
   * The named parameters of each variant's `__init__` besides `**kwargs`: `self`, `data_path`
   * and, for CustomImageNet, `custom_grouping`. A caller key with one of these names fails
   * Python's argument binding before the body runs.
   */
  function VariantParams(v: Variant): (params: set<string>)
    requires v != Base
    ensures "self" in params && "data_path" in params
    ensures (v == CustomImageNet) <==> "custom_grouping" in params
    ensures params !! Recognized
  {
    if v == CustomImageNet then {"self", "data_path", "custom_grouping"} else {"self", "data_path"}
  }

  // Normalisation tensors and transform pipelines, as opaque objects.
  const ImageNetMean: Value := Instance("Tensor", "mean [0.485, 0.456, 0.406]")
  const ImageNetStd: Value := Instance("Tensor", "std [0.229, 0.224, 0.225]")
  const RestrictedMean: Value := Instance("Tensor", "mean [0.4717, 0.4499, 0.3837]")
  const RestrictedStd: Value := Instance("Tensor", "std [0.2600, 0.2516, 0.2575]")
  const TrainTransformsImageNet: Value := Instance("Compose", "TRAIN_TRANSFORMS_IMAGENET")
  const TestTransformsImageNet: Value := Instance("Compose", "TEST_TRANSFORMS_IMAGENET")
  const TrainTransformsDefault256: Value := Instance("Compose", "TRAIN_TRANSFORMS_DEFAULT(256)")
  const TestTransformsDefault256: Value := Instance("Compose", "TEST_TRANSFORMS_DEFAULT(256)")

  /**
   * The fine-label ranges of the RestrictedImageNet superclasses: dog, cat, frog, turtle,
   * bird, monkey, fish, crab and insect.
   */
  const RestrictedImageNetRanges: seq<(int, int)> :=
    [(151, 268), (281, 285), (30, 32), (33, 37), (80, 100), (365, 382), (389, 397), (118, 121), (300, 319)]

  /**
   * The defaults map each variant's constructor builds. `labelMapping` is the result of
   * `get_label_mapping` for the grouped variants; `customGrouping` is CustomImageNet's
   * list of groups of class identifiers.
   */
  function VariantDefaults(v: Variant, customGrouping: seq<seq<string>>, labelMapping: Value)
    : (d: map<string, Value>)
    requires v != Base
    ensures d.Keys == Recognized - {"custom_class_args"}
    ensures d["custom_class"] == NoneValue
    ensures d["label_mapping"] == if v.RemapsLabels() then labelMapping else NoneValue
  {
    match v
    case ImageNet =>
      map["num_classes" := IntValue(1000), "mean" := ImageNetMean, "std" := ImageNetStd,
          "custom_class" := NoneValue, "label_mapping" := NoneValue,
          "transform_train" := TrainTransformsImageNet, "transform_test" := TestTransformsImageNet]
    case Places365 =>
      map["num_classes" := IntValue(365), "mean" := ImageNetMean, "std" := ImageNetStd,
          "custom_class" := NoneValue, "label_mapping" := NoneValue,
          "transform_train" := TrainTransformsDefault256, "transform_test" := TestTransformsDefault256]
    case RestrictedImageNet =>
      map["num_classes" := IntValue(|RestrictedImageNetRanges|), "mean" := RestrictedMean,
          "std" := RestrictedStd, "custom_class" := NoneValue, "label_mapping" := labelMapping,
          "transform_train" := TrainTransformsImageNet, "transform_test" := TestTransformsImageNet]
    case CustomImageNet =>
      map["num_classes" := IntValue(|customGrouping|), "mean" := RestrictedMean,
          "std" := RestrictedStd, "custom_class" := NoneValue, "label_mapping" := labelMapping,
          "transform_train" := TrainTransformsImageNet, "transform_test" := TestTransformsImageNet]
  }

  /** Every variant's defaults supply the required arguments and only recognised ones. */
  lemma DefaultsWellFormed(v: Variant, customGrouping: seq<seq<string>>, labelMapping: Value)
    requires v != Base
    ensures Required <= VariantDefaults(v, customGrouping, labelMapping).Keys <= Recognized
    ensures "custom_class_args" !in VariantDefaults(v, customGrouping, labelMapping)
    ensures VariantDefaults(v, customGrouping, labelMapping).Keys !! InitParams
  {
    RecognizedAreNotParams();
  }

  /**
   * With no overrides every variant constructs, storing exactly its defaults plus
   * `custom_class_args = None`.
   */
  lemma DefaultsAccepted(v: Variant, customGrouping: seq<seq<string>>, labelMapping: Value)
    requires v != Base
    ensures NoKwargs.Valid()
    ensures var d := VariantDefaults(v, customGrouping, labelMapping);
            VariantArgs(VariantParams(v), d, NoKwargs) == Ok(d["custom_class_args" := NoneValue])
  {
    var d := VariantDefaults(v, customGrouping, labelMapping);
    assert d.Keys == Recognized - {"custom_class_args"};
    UnoverriddenDefaultsStored(VariantParams(v), d);
  }

  /** Defaults naming every recognised argument but `custom_class_args` are stored as given. */
  lemma UnoverriddenDefaultsStored(params: set<string>, d: map<string, Value>)
    requires d.Keys == Recognized - {"custom_class_args"}
    ensures NoKwargs.Valid()
    ensures VariantArgs(params, d, NoKwargs) == Ok(d["custom_class_args" := NoneValue])
  {
    NoOverridesKeepDefaults(d);
    RecognizedAreNotParams();
    assert NoKwargs.items.Keys * params == {};
    assert InitArgs(d) == ValidateArgs(d);
    assert ValidateArgs(d).value == d["custom_class_args" := NoneValue];
  }

  /**
   * Without a `num_classes` override the class count is the variant's own: 1000 for
   * ImageNet, 365 for Places365, the number of superclass ranges (nine) for
   * RestrictedImageNet and the number of groups for CustomImageNet.
   */
  lemma DefaultClassCount(v: Variant, customGrouping: seq<seq<string>>, labelMapping: Value, kwargs: Kwargs)
    requires v != Base && kwargs.Valid() && "num_classes" !in kwargs.items
    ensures var r := VariantArgs(VariantParams(v), VariantDefaults(v, customGrouping, labelMapping), kwargs);
            r.Ok? ==> var n := r.value["num_classes"];
            && (v == ImageNet ==> n == IntValue(1000))
            && (v == Places365 ==> n == IntValue(365))
            && (v == RestrictedImageNet ==> n == IntValue(9))
            && (v == CustomImageNet ==> n == IntValue(|customGrouping|))
  {
    DefaultValueStored(VariantParams(v), VariantDefaults(v, customGrouping, labelMapping), kwargs, "num_classes");
  }

  /** A single `int` override of `num_classes` is accepted by every variant and replaces the count. */
  lemma ClassCountOverride(v: Variant, customGrouping: seq<seq<string>>, labelMapping: Value, n: int)
    requires v != Base
    ensures Kwargs(["num_classes"], map["num_classes" := IntValue(n)]).Valid()
    ensures var r := VariantArgs(VariantParams(v), VariantDefaults(v, customGrouping, labelMapping),
                                 Kwargs(["num_classes"], map["num_classes" := IntValue(n)]));
            r.Ok? && r.value["num_classes"] == IntValue(n)
  {
    var d := VariantDefaults(v, customGrouping, labelMapping);
    var kw := Kwargs(["num_classes"], map["num_classes" := IntValue(n)]);
    DefaultsWellFormed(v, customGrouping, labelMapping);
    assert Overridden(d, kw).Ok?;
    assert Overridden(d, kw).value.Keys == d.Keys;
    CallerValueStored(VariantParams(v), d, kw, "num_classes");
  }

  /**
   * The check is `isinstance`, not type equality: a `bool` class count passes the `int`
   * default's check (`bool` is a subclass of `int`) and is stored as given.
   */
  lemma BoolClassCountAccepted(v: Variant, customGrouping: seq<seq<string>>, labelMapping: Value, b: bool)
    requires v != Base
    ensures Kwargs(["num_classes"], map["num_classes" := BoolValue(b)]).Valid()
    ensures var r := VariantArgs(VariantParams(v), VariantDefaults(v, customGrouping, labelMapping),
                                 Kwargs(["num_classes"], map["num_classes" := BoolValue(b)]));
            r.Ok? && r.value["num_classes"] == BoolValue(b)
  {
    var d := VariantDefaults(v, customGrouping, labelMapping);
    var kw := Kwargs(["num_classes"], map["num_classes" := BoolValue(b)]);
    DefaultsWellFormed(v, customGrouping, labelMapping);
    assert !Mismatch(d, kw.items, "num_classes");
    assert Overridden(d, kw).value.Keys == d.Keys;
    CallerValueStored(VariantParams(v), d, kw, "num_classes");
  }

  /** A class count of the wrong type is rejected, naming `int` as the required type. */
  lemma TensorClassCountRejected(v: Variant, customGrouping: seq<seq<string>>, labelMapping: Value, t: string)
    requires v != Base
    ensures Kwargs(["num_classes"], map["num_classes" := Instance("Tensor", t)]).Valid()
    ensures VariantArgs(VariantParams(v), VariantDefaults(v, customGrouping, labelMapping),
                        Kwargs(["num_classes"], map["num_classes" := Instance("Tensor", t)]))
         == Err(WrongType("num_classes", IntType))
  {
    var d := VariantDefaults(v, customGrouping, labelMapping);
    var kw := Kwargs(["num_classes"], map["num_classes" := Instance("Tensor", t)]);
    assert d["num_classes"].IntValue?;
    assert Mismatch(d, kw.items, "num_classes");
    assert FirstMismatch(d, kw.items, kw.order) == Some("num_classes");
  }

  /** Every variant rejects a caller key outside the eight recognised names. */
  lemma VariantRejectsUnknownKey(v: Variant, customGrouping: seq<seq<string>>, labelMapping: Value,
                                 kwargs: Kwargs, k: string)
    requires v != Base && kwargs.Valid() && k in kwargs.items && k !in Recognized
    ensures VariantArgs(VariantParams(v), VariantDefaults(v, customGrouping, labelMapping), kwargs).Err?
  {
    DefaultsWellFormed(v, customGrouping, labelMapping);
    UnknownKeyRejected(VariantParams(v), VariantDefaults(v, customGrouping, labelMapping), kwargs, k);
  }

  /**
   * A lone keyword naming a parameter fails binding with that name: `self` and `data_path`
   * (and `custom_grouping` for CustomImageNet) when the variant is called, `ds_name` when
   * the merged arguments are passed to `DataSet.__init__`.
   */
  lemma ReservedNameAloneRejected(v: Variant, customGrouping: seq<seq<string>>, labelMapping: Value,
                                  k: string, x: Value)
    requires v != Base && (k in InitParams || k in VariantParams(v))
    ensures Kwargs([k], map[k := x]).Valid()
    ensures VariantArgs(VariantParams(v), VariantDefaults(v, customGrouping, labelMapping),
                        Kwargs([k], map[k := x]))
         == Err(DuplicateArgument({k}))
  {
    var d := VariantDefaults(v, customGrouping, labelMapping);
    var kw := Kwargs([k], map[k := x]);
    DefaultsWellFormed(v, customGrouping, labelMapping);
    if k !in VariantParams(v) {
      assert kw.items.Keys * VariantParams(v) == {};
      assert k !in d;
      assert !Mismatch(d, kw.items, k);
      var merged := Overridden(d, kw).value;
      assert merged.Keys * InitParams == {k};
    } else {
      assert kw.items.Keys * VariantParams(v) == {k};
    }
  }

  /**
   * The call `get_model` makes to the architecture registry: the builder named `arch`,
   * given `num_classes`, and `pretrained` when the variant passes it.
   */
  datatype ModelCall = ModelCall(arch: string, numClasses: Value, pretrained: Option<bool>)

  /** A dataset descriptor: its name, its data location and the eight keyword-argument attributes. */
  class DataSet {
    var variant: Variant
    var dsName: string
    var dataPath: string
    var numClasses: Value
    var mean: Value
    var std: Value
    var transformTrain: Value
    var transformTest: Value
    var customClass: Value
    var labelMapping: Value
    var customClassArgs: Value

    /** The keyword-argument attributes, keyed by their Python names. */
    function Attrs(): (m: map<string, Value>)
      reads this
      ensures m.Keys == Recognized && |m| == 8
    {
      RecognizedHasEightNames();
      map["num_classes" := numClasses, "mean" := mean, "std" := std,
          "transform_train" := transformTrain, "transform_test" := transformTest,
          "custom_class" := customClass, "label_mapping" := labelMapping,
          "custom_class_args" := customClassArgs]
    }

    /** Stores a validated attribute set; `attrs` is what `InitArgs` produced. */
    constructor (variant: Variant, dsName: string, dataPath: string, attrs: map<string, Value>)
      requires attrs.Keys == Recognized
      ensures this.variant == variant && this.dsName == dsName && this.dataPath == dataPath
      ensures Attrs() == attrs
    {
      this.variant := variant;
      this.dsName := dsName;
      this.dataPath := dataPath;
      numClasses := attrs["num_classes"];
      mean := attrs["mean"];
      std := attrs["std"];
      transformTrain := attrs["transform_train"];
      transformTest := attrs["transform_test"];
      customClass := attrs["custom_class"];
      labelMapping := attrs["label_mapping"];
      customClassArgs := attrs["custom_class_args"];
      new;
      assert Attrs() == attrs;
    }

    /**
     * `DataSet.__init__`: validates the keyword arguments and, only when they pass,
     * creates a descriptor holding the final attribute set.
     */
    static method Init(variant: Variant, dsName: string, dataPath: string, kwargs: map<string, Value>)
      returns (r: Result<DataSet, DatasetError>)
      ensures r.Err? <==> InitArgs(kwargs).Err?
      ensures r.Err? ==> InitArgs(kwargs) == Err(r.error)
      ensures r.Ok? ==> && fresh(r.value)
                        && r.value.variant == variant && r.value.dsName == dsName
                        && r.value.dataPath == dataPath
                        && InitArgs(kwargs) == Ok(r.value.Attrs())
    {
      match InitArgs(kwargs)
      case Err(e) =>
        r := Err(e);
      case Ok(attrs) =>
        var ds := new DataSet(variant, dsName, dataPath, attrs);
        r := Ok(ds);
    }

    /**
     * The body every variant's `__init__` shares, after Python has bound its named parameters
     * `params`: override its defaults, then call `DataSet.__init__` with the merge.
     */
    static method Construct(variant: Variant, params: set<string>, defaults: map<string, Value>,
                            dataPath: string, kwargs: Kwargs)
      returns (r: Result<DataSet, DatasetError>)
      requires variant != Base && kwargs.Valid()
      ensures r.Err? <==> VariantArgs(params, defaults, kwargs).Err?
      ensures r.Err? ==> VariantArgs(params, defaults, kwargs) == Err(r.error)
      ensures r.Ok? ==> && fresh(r.value)
                        && r.value.variant == variant && r.value.dsName == DsName(variant)
                        && r.value.dataPath == dataPath
                        && VariantArgs(params, defaults, kwargs) == Ok(r.value.Attrs())
    {
      var clash := kwargs.items.Keys * params;
      if clash != {} {
        return Err(DuplicateArgument(clash));
      }
      var dsKwargs := OverrideArgs(defaults, kwargs);
      match dsKwargs
      case Err(e) =>
        r := Err(e);
      case Ok(merged) =>
        r := Init(variant, DsName(variant), dataPath, merged);
    }

    /** `ImageNet(data_path, **kwargs)`. */
    static method NewImageNet(dataPath: string, kwargs: Kwargs) returns (r: Result<DataSet, DatasetError>)
      requires kwargs.Valid()
      ensures r.Err? ==> VariantArgs(VariantParams(ImageNet), VariantDefaults(ImageNet, [], NoneValue), kwargs) == Err(r.error)
      ensures r.Ok? ==> && fresh(r.value)
                        && r.value.variant == ImageNet && r.value.dsName == "imagenet"
                        && r.value.dataPath == dataPath
                        && VariantArgs(VariantParams(ImageNet), VariantDefaults(ImageNet, [], NoneValue), kwargs) == Ok(r.value.Attrs())
    {
      r := Construct(ImageNet, VariantParams(ImageNet), VariantDefaults(ImageNet, [], NoneValue),
                     dataPath, kwargs);
    }

    /** `Places365(data_path, **kwargs)`. */
    static method NewPlaces365(dataPath: string, kwargs: Kwargs) returns (r: Result<DataSet, DatasetError>)
      requires kwargs.Valid()
      ensures r.Err? ==> VariantArgs(VariantParams(Places365), VariantDefaults(Places365, [], NoneValue), kwargs) == Err(r.error)
      ensures r.Ok? ==> && fresh(r.value)
                        && r.value.variant == Places365 && r.value.dsName == "places365"
                        && r.value.dataPath == dataPath
                        && VariantArgs(VariantParams(Places365), VariantDefaults(Places365, [], NoneValue), kwargs) == Ok(r.value.Attrs())
    {
      r := Construct(Places365, VariantParams(Places365), VariantDefaults(Places365, [], NoneValue),
                     dataPath, kwargs);
    }

    /**
     * `RestrictedImageNet(data_path, **kwargs)`; `labelMapping` is what `get_label_mapping`
     * returns for the superclass ranges.
     */
    static method NewRestrictedImageNet(dataPath: string, labelMapping: Value, kwargs: Kwargs)
      returns (r: Result<DataSet, DatasetError>)
      requires kwargs.Valid()
      ensures r.Err? ==> VariantArgs(VariantParams(RestrictedImageNet), VariantDefaults(RestrictedImageNet, [], labelMapping), kwargs) == Err(r.error)
      ensures r.Ok? ==> && fresh(r.value)
                        && r.value.variant == RestrictedImageNet && r.value.dsName == "restricted_imagenet"
                        && r.value.dataPath == dataPath
                        && VariantArgs(VariantParams(RestrictedImageNet), VariantDefaults(RestrictedImageNet, [], labelMapping), kwargs)
                           == Ok(r.value.Attrs())
    {
      r := Construct(RestrictedImageNet, VariantParams(RestrictedImageNet),
                     VariantDefaults(RestrictedImageNet, [], labelMapping), dataPath, kwargs);
    }

    /**
     * `CustomImageNet(data_path, custom_grouping, **kwargs)`; `labelMapping` is what
     * `get_label_mapping` returns for `customGrouping`.
     */
    static method NewCustomImageNet(dataPath: string, customGrouping: seq<seq<string>>, labelMapping: Value,
                                    kwargs: Kwargs)
      returns (r: Result<DataSet, DatasetError>)
      requires kwargs.Valid()
      ensures r.Err? ==> VariantArgs(VariantParams(CustomImageNet), VariantDefaults(CustomImageNet, customGrouping, labelMapping), kwargs)
                         == Err(r.error)
      ensures r.Ok? ==> && fresh(r.value)
                        && r.value.variant == CustomImageNet && r.value.dsName == "custom_imagenet"
                        && r.value.dataPath == dataPath
                        && VariantArgs(VariantParams(CustomImageNet), VariantDefaults(CustomImageNet, customGrouping, labelMapping), kwargs)
                           == Ok(r.value.Attrs())
    {
      r := Construct(CustomImageNet, VariantParams(CustomImageNet),
                     VariantDefaults(CustomImageNet, customGrouping, labelMapping), dataPath, kwargs);
    }

    /**
     * `get_model(arch, pretrained)`, with `archs` the names the architecture registry defines.
     * The base class has no model; the label-remapped variants refuse pretrained weights
     * before looking the architecture up; every other request is the registry's builder for
     * `arch` applied to the stored class count.
     */
    function GetModel(arch: string, pretrained: bool, archs: set<string>): (r: Result<ModelCall, DatasetError>)
      reads this
      ensures variant == Base ==> r == Err(NotImplemented)
      ensures r == Err(PretrainedUnsupported) <==> pretrained && variant.RemapsLabels()
      ensures r.Ok? <==> variant != Base && arch in archs && !(pretrained && variant.RemapsLabels())
      ensures r.Err? && variant != Base && !(pretrained && variant.RemapsLabels()) ==> r == Err(UnknownArch(arch))
      ensures r.Ok? ==> && r.value.arch == arch && r.value.numClasses == numClasses
                        && r.value.pretrained == if variant.RemapsLabels() then None else Some(pretrained)
    {
      match variant
      case Base => Err(NotImplemented)
      case ImageNet | Places365 =>
        if arch in archs then Ok(ModelCall(arch, numClasses, Some(pretrained))) else Err(UnknownArch(arch))
      case RestrictedImageNet | CustomImageNet =>
        if pretrained then Err(PretrainedUnsupported)
        else if arch in archs then Ok(ModelCall(arch, numClasses, None))
        else Err(UnknownArch(arch))
    }
  }

  /** The `DATASETS` table: the name under which each registered variant can be constructed. */
  function DatasetRegistry(): (registry: map<string, Variant>)
    ensures registry.Values == {ImageNet, RestrictedImageNet, CustomImageNet}
    ensures |registry| == 3
  {
    var registry :=
      map["imagenet" := ImageNet, "restricted_imagenet" := RestrictedImageNet, "custom_imagenet" := CustomImageNet];
    assert registry["imagenet"] == ImageNet && registry["restricted_imagenet"] == RestrictedImageNet
        && registry["custom_imagenet"] == CustomImageNet;
    registry
  }

  /**
   * The table holds exactly three names, each naming the variant whose `ds_name` it is;
   * Places365 (and the base class) are not registered.
   */
  lemma RegistryContents()
    ensures DatasetRegistry().Keys == {"imagenet", "restricted_imagenet", "custom_imagenet"}
    ensures forall name :: name in DatasetRegistry() ==> DsName(DatasetRegistry()[name]) == name
  {
  }
}

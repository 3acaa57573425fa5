# Dataset descriptors of `robustness`: keyword-argument discipline

This project models the configuration layer in `robustness/datasets.py`.
In that layer, every dataset descriptor is a `DataSet` object built from keyword arguments:

- `DataSet.__init__` demands five arguments (`num_classes`, `mean`, `std`, `transform_train`, `transform_test`).
- It also accepts three optional ones (`custom_class`, `label_mapping`, `custom_class_args`).
- It rejects first a missing required argument, then any unrecognised argument.
- It stores all eight attributes, using `None` for those the caller left out.

Each variant constructor (`ImageNet`, `Places365`, `RestrictedImageNet`, `CustomImageNet`) builds a map of defaults.
It then merges the caller's overrides into that map with `override_args`, and hands the result to `DataSet.__init__`.
`override_args` type-checks each overridden key that has a default, when neither the default nor the override is `None`, using `isinstance`, and raises at the first key that fails.
`get_model` refuses pretrained weights on the two label-remapped variants, and passes the stored class count to the architecture registry.
`DATASETS` maps three names to their constructors.

Files and modules:

- `wrappers.dfy`, module `Wrappers`: `Option` and `Result`.
- `pyvalues.dfy`, module `PyValues`: Python values and `isinstance`.
  - Ints and bools keep their value.
  - Every other object (a tensor, a transform pipeline, a label-mapping function) is an opaque `Instance(class, identity)`.
  - `bool` is a subclass of `int`, as in Python.
- `dataset_args.dfy`, module `DatasetArgs`: the validation of `__init__` (`ValidateArgs`) and the merge of `override_args`.
  - A keyword-argument dict is a `Kwargs` value: its keys in insertion order, plus its entries.
  - The order is what makes `override_args` report the first mismatching key.
  - `Overridden` is the merge as a pure function; `OverrideArgs` is the loop, proved equal to it.
  - `InitArgs` is the call of `__init__`: argument binding, then `ValidateArgs`.
  - `VariantArgs` is the full path of a variant's constructor: binding of its own parameters, the merge, then `InitArgs`.
- `datasets.dfy`, module `Datasets`: the `DataSet` class, the variants' defaults, `get_model` and the registry.
  - `DataSet` keeps a `variant` field for the Python class of the object, and one field per attribute: `ds_name`, `data_path` and the eight keyword attributes.
  - `Attrs()` gives back the eight keyword attributes as a map; `ds_name` and `data_path` are not part of it.
  - A Dafny constructor cannot fail, so `__init__` and the variant constructors are static methods returning `Result<DataSet, DatasetError>`.
  - They allocate the object only after validation succeeds.

Behaviour of the code worth noting:

- The override check is `isinstance(value, type(default))`, so `num_classes=True` passes an `int` default, because `bool` is a subclass of `int`.
- The class count of a grouped variant is only a default. An explicit `num_classes` override replaces it, even when it no longer matches the number of groups.
- An unknown architecture name makes the lookup `imagenet_models.__dict__[arch]` raise a `KeyError`. The model reports it as `UnknownArch`.
- A keyword argument that names a parameter of the call fails Python's argument binding with a `TypeError`, before any validation runs. Those parameters are `self` and `data_path` of a variant constructor, `custom_grouping` of CustomImageNet, and `ds_name` of `DataSet.__init__`. A `ds_name` key passes `override_args`, because it has no default, and then fails when the merge is passed to `DataSet.__init__`. The model calls this error `DuplicateArgument`.
- The docstring of `__init__` calls `custom_class` and `label_mapping` required. The code treats them as optional.
- `Places365` exists but is not registered in `DATASETS`.

## Model

| member | source | states |
|---|---|---|
| `DatasetArgs.RecognizedHasEightNames` | robustness/datasets.py:71-73 | the required and optional names are disjoint and make up eight names |
| `DatasetArgs.ValidateArgs` | robustness/datasets.py:71-82 | fails with the missing-arguments error iff some required name is absent, reporting exactly the absent ones; otherwise fails with the unrecognised-arguments error iff some key is outside the eight names, reporting exactly those; otherwise succeeds with exactly the eight names, each holding the caller's value or `None` |
| `DatasetArgs.InitArgs` | robustness/datasets.py:45-82 | a call of `DataSet.__init__` fails binding iff a keyword names `self`, `ds_name` or `data_path`, reporting exactly those names; otherwise its outcome is that of `ValidateArgs` |
| `DatasetArgs.ValidateArgsIdempotent` | robustness/datasets.py:75-82 | an accepted attribute set, validated again, is accepted unchanged |
| `DatasetArgs.OptionalNoneSameAsAbsent` | robustness/datasets.py:73-82 | an optional argument given as `None` gives the same outcome as leaving it out |
| `DatasetArgs.Mismatch` | robustness/datasets.py:93-96 | an override fails the type check iff both values are non-`None` and their types differ, except that a `bool` override of an `int` default passes |
| `DatasetArgs.FirstMismatch` | robustness/datasets.py:92-97 | scanning keys in order finds nothing iff no key fails the type check; otherwise it finds the first key that fails |
| `DatasetArgs.Overridden` | robustness/datasets.py:88-98 | the merge fails iff some caller key has a default, both values are non-`None`, and the caller's value is not an instance of the default's type; the error names the first such key in the caller's order and the default's type; on success the key set is the union of both maps, every caller key holds the caller's value, and every other key keeps its default |
| `DatasetArgs.OverrideArgs` | robustness/datasets.py:88-98 | the loop over the caller's keys returns exactly what `Overridden` specifies |
| `DatasetArgs.NoOverridesKeepDefaults` | robustness/datasets.py:98 | with no overrides the defaults come back unchanged |
| `DatasetArgs.SameMismatchesSameFirst` | robustness/datasets.py:92-97 | two dicts whose keys fail the check at the same places make the scan stop at the same key |
| `DatasetArgs.UncheckedKeyAcceptsAnyValue` | robustness/datasets.py:92-98 | a key with no default, or a `None` default, is never type-checked: any value there leaves success, failure and the error unchanged, and the merge holds the new value |
| `DatasetArgs.NoneOverrideAccepted` | robustness/datasets.py:95-98 | an explicit `None` override never fails the check and replaces the default in the merge |
| `DatasetArgs.UnknownKeyRejected` | robustness/datasets.py:79-98 | when the defaults supply every required name, a caller key outside the eight names always makes construction fail; when no caller key names a parameter and the merge succeeded, the error is unrecognised-arguments and names that key |
| `DatasetArgs.ReservedKeyRejected` | robustness/datasets.py:186-199 | a caller key naming a parameter of the variant constructor fails binding, and the error names it; a `ds_name` key that passes the merge fails the binding of `DataSet.__init__`, and the error names it |
| `DatasetArgs.VariantArgs` | robustness/datasets.py:186-199 | a clash with the constructor's parameters is reported first, and a failed merge next; construction succeeds iff no caller key names a parameter, no override fails the type check, and the merged keys include the required names and are all recognised; on success the eight names hold the caller's value, else the default, else `None` |
| `DatasetArgs.CallerValueStored` | robustness/datasets.py:82-98 | a recognised argument the caller supplies is stored as the caller gave it |
| `DatasetArgs.DefaultValueStored` | robustness/datasets.py:82-98 | a recognised argument the caller leaves out is stored as its default, or as `None` when it has no default |
| `Datasets.DsName` | robustness/datasets.py:199-300 | each variant's `ds_name` is a key of `DATASETS` naming that variant, except Places365's, which is absent |
| `Datasets.VariantDefaults` | robustness/datasets.py:189-310 | every variant's defaults name all recognised arguments but `custom_class_args`, set `custom_class` to `None`, and set `label_mapping` to the given mapping exactly for the label-remapped variants |
| `Datasets.VariantParams` | robustness/datasets.py:186-297 | each variant constructor's own parameters are `self` and `data_path`, plus `custom_grouping` exactly for CustomImageNet, and none of them is a recognised argument name |
| `Datasets.DefaultsWellFormed` | robustness/datasets.py:186-313 | every variant's defaults hold all five required names, only recognised names, no `custom_class_args`, and no parameter name of `DataSet.__init__` |
| `Datasets.DefaultsAccepted` | robustness/datasets.py:186-313 | with no overrides, every variant stores exactly its defaults plus `custom_class_args = None` |
| `Datasets.DefaultClassCount` | robustness/datasets.py:190-302 | without a `num_classes` override, the stored class count is 1000 (ImageNet), 365 (Places365), 9, the number of superclass ranges (RestrictedImageNet), or the number of groups (CustomImageNet) |
| `Datasets.ClassCountOverride` | robustness/datasets.py:186-199 | a lone `int` override of `num_classes` is accepted by every variant and replaces the class count |
| `Datasets.BoolClassCountAccepted` | robustness/datasets.py:94-96 | a `bool` class count passes the `int` default's `isinstance` check and is stored |
| `Datasets.TensorClassCountRejected` | robustness/datasets.py:94-97 | a tensor class count fails, naming `int` as the required type |
| `Datasets.VariantRejectsUnknownKey` | robustness/datasets.py:186-199 | every variant fails when given a key outside the eight names |
| `Datasets.ReservedNameAloneRejected` | robustness/datasets.py:186-199 | a lone keyword `self`, `ds_name` or `data_path`, or `custom_grouping` on CustomImageNet, makes every variant fail binding with exactly that name |
| `Datasets.DataSet.Attrs` | robustness/datasets.py:82-86 | a descriptor's attributes are exactly the eight recognised names, eight in number |
| `Datasets.DataSet.constructor` | robustness/datasets.py:84-86 | stores the name, the data path and each of the eight validated attributes |
| `Datasets.DataSet.Init` | robustness/datasets.py:45-86 | fails exactly when `InitArgs` fails (argument binding, then validation), with its error; otherwise a new descriptor holds the name, the path and the validated attributes |
| `Datasets.DataSet.Construct` | robustness/datasets.py:198-199 | a variant's constructor fails exactly when `VariantArgs` fails (binding of its own parameters, the merge, then `DataSet.__init__`), with its error; otherwise the new descriptor has the variant's `ds_name` and the merged, validated attributes |
| `Datasets.DataSet.NewImageNet` | robustness/datasets.py:186-199 | the ImageNet constructor: its defaults overridden and validated, under the name `imagenet` |
| `Datasets.DataSet.NewPlaces365` | robustness/datasets.py:217-230 | the Places365 constructor: its defaults overridden and validated, under the name `places365` |
| `Datasets.DataSet.NewRestrictedImageNet` | robustness/datasets.py:261-277 | the RestrictedImageNet constructor: its defaults, including the given label mapping, overridden and validated, under the name `restricted_imagenet` |
| `Datasets.DataSet.NewCustomImageNet` | robustness/datasets.py:297-313 | the CustomImageNet constructor: its defaults, counting the groups and including the given label mapping, overridden and validated, under the name `custom_imagenet` |
| `Datasets.DataSet.GetModel` | robustness/datasets.py:100-320 | the base class fails with not-implemented; the result is the pretrained error iff pretrained is requested on a label-remapped variant; otherwise the lookup of an unknown name fails, and a known name gets the stored class count, plus `pretrained` only on ImageNet and Places365 |
| `Datasets.DatasetRegistry` | robustness/datasets.py:323-327 | `DATASETS` has three entries, one for each of ImageNet, RestrictedImageNet and CustomImageNet; Places365 and the base class are absent |
| `Datasets.RegistryContents` | robustness/datasets.py:323-327 | `DATASETS` holds exactly `imagenet`, `restricted_imagenet` and `custom_imagenet`, each naming the variant with that `ds_name` |

## Left out

- `make_loaders` (`robustness/datasets.py:118-172`) only forwards parameters to the loader module, which does file-system I/O. The loader module is not part of this model.
- `get_label_mapping` lives in `robustness/tools/helpers`, which is not part of this model. Its result is a parameter (`labelMapping`) of the grouped variants' constructors, and is never inspected.
- `robustness/tools/constants.py` is not part of this model. The nine superclass ranges of `RESTRICTED_IMAGNET_RANGES` are taken from the RestrictedImageNet docstring. Only their count is used.
- The normalisation tensors and the transform pipelines of `data_augmentation` are opaque objects: a class (`Tensor`, `Compose`) and an identity. Their floating-point contents are not modelled.
- The architecture registry `imagenet_models.__dict__` is a foreign module. It is modelled as the set of names it defines. `GetModel` returns the call it would make, and does not build a network.
- `PyValues.IsSubclass`: the only subclass relation known is `bool` under `int`. Any other class is related only to itself, so a subclass instance of an opaque class (say, a tensor subclass) is treated as a mismatch.
- Error messages are not modelled, only which error is raised and which keys or type it reports.
- `DatasetArgs.InitArgs`: Python's binding `TypeError` names one clashing parameter of `__init__`; the model reports the set of all of them (`DuplicateArgument`).
- `DatasetArgs.VariantArgs`: the same holds for a clash with a variant constructor's own parameters. The model reports all the clashing names.
- `Datasets.DataSet.Construct`: the same holds for the clash it reports before the merge, and so for the four variant constructors that call it.
- `DatasetArgs.VariantArgs` models a variant called as `Variant(data_path, **kwargs)`, with `data_path` given positionally, or as `CustomImageNet(data_path, custom_grouping, **kwargs)`. Other call forms, such as passing `data_path` only as a keyword, are not modelled.
- The module docstring lists CIFAR, CINIC and A2B variants. This file has no code for them.
- `openimgs_helpers` and the `DATASETS` docstring example are not used by the logic.

/**
 * The keyword-argument discipline every dataset descriptor passes through:
 * the validation `DataSet.__init__` applies to its keyword arguments, and the
 * type-checked merge of a variant's defaults with the caller's overrides
 * (`DataSet.override_args`).
 */
module DatasetArgs {
  import opened Wrappers
  import opened PyValues

  /** The errors the descriptors raise. */
  datatype DatasetError =
    | MissingArgs(missing: set<string>)          // ValueError: missing required args
    | UnrecognizedArgs(extra: set<string>)       // ValueError: unrecognized args
    | WrongType(arg: string, reqType: PyType)    // ValueError: override of the wrong type
    | PretrainedUnsupported                      // ValueError: pretrained on a remapped label space
    | NotImplemented                             // NotImplementedError: base-class get_model
    | UnknownArch(arch: string)                  // the architecture lookup is undefined for this name
    | DuplicateArgument(names: set<string>)      // TypeError: a keyword names a parameter already bound

  /** The keyword arguments `__init__` demands. */
  const Required: set<string> := {"num_classes", "mean", "std", "transform_train", "transform_test"}

  /** The keyword arguments `__init__` accepts but does not demand. */
  const Optional: set<string> := {"custom_class", "label_mapping", "custom_class_args"}

  /** Every keyword argument `__init__` accepts; these are the attributes a descriptor stores. */
  const Recognized: set<string> := Required + Optional

  /**
   * A keyword-argument dict: its keys in insertion order (the order a `for` loop over
   * the dict visits them) and its entries.
   */
  datatype Kwargs = Kwargs(order: seq<string>, items: map<string, Value>) {
    ghost predicate Valid()
    {
      && (forall k :: k in items <==> k in order)
      && (forall i, j :: 0 <= i < j < |order| ==> order[i] != order[j])
    }
  }

  /**
   * The named parameters of `DataSet.__init__(self, ds_name, data_path, **kwargs)`: a keyword
   * argument with one of these names is bound to the parameter, which the call has already
   * given positionally, so Python raises a `TypeError` instead of collecting it in `kwargs`.
   */
  const InitParams: set<string> := {"self", "ds_name", "data_path"}

  /** The dict `{}`. */
  const NoKwargs: Kwargs := Kwargs([], map[])

  lemma RecognizedHasEightNames()
    ensures |Recognized| == 8 && Required !! Optional
  {
  }

  /**
   * The validation and final attribute set of `DataSet.__init__`: it fails when a required
   * argument is missing, then when an argument is not recognised; otherwise every recognised
   * name gets the caller's value, or `None` when the caller did not supply it.
   */
  function ValidateArgs(kwargs: map<string, Value>): (r: Result<map<string, Value>, DatasetError>)
    ensures r.Err? ==> r.error.MissingArgs? || r.error.UnrecognizedArgs?
    ensures (r.Err? && r.error.MissingArgs?) <==> exists k :: k in Required && k !in kwargs
    ensures r.Err? && r.error.MissingArgs? ==>
      forall k :: k in r.error.missing <==> k in Required && k !in kwargs
    ensures (r.Err? && r.error.UnrecognizedArgs?) <==>
      Required <= kwargs.Keys && exists k :: k in kwargs && k !in Recognized
    ensures r.Err? && r.error.UnrecognizedArgs? ==>
      forall k :: k in r.error.extra <==> k in kwargs && k !in Recognized
    ensures r.Ok? <==> Required <= kwargs.Keys <= Recognized
    ensures r.Ok? ==> r.value.Keys == Recognized
    ensures r.Ok? ==> forall k :: k in Recognized ==>
      r.value[k] == if k in kwargs then kwargs[k] else NoneValue
  {
    var missing := Required - kwargs.Keys;
    if missing != {} then Err(MissingArgs(missing))
    else
      var extra := kwargs.Keys - Recognized;
      if extra != {} then Err(UnrecognizedArgs(extra))
      else Ok(map k | k in Recognized :: if k in kwargs then kwargs[k] else NoneValue)
  }

  /** A descriptor's stored attributes, handed back to `__init__`, are accepted unchanged. */
  lemma ValidateArgsIdempotent(kwargs: map<string, Value>)
    requires ValidateArgs(kwargs).Ok?
    ensures ValidateArgs(ValidateArgs(kwargs).value) == ValidateArgs(kwargs)
  {
    var attrs := ValidateArgs(kwargs).value;
    assert Required <= attrs.Keys <= Recognized;
    assert ValidateArgs(attrs).value == attrs;
  }

  /** Passing an optional argument as an explicit `None` is the same as leaving it out. */
  lemma OptionalNoneSameAsAbsent(kwargs: map<string, Value>, k: string)
    requires k in Optional
    ensures ValidateArgs(kwargs[k := NoneValue]) == ValidateArgs(kwargs - {k})
  {
    var a, b := kwargs[k := NoneValue], kwargs - {k};
    assert k !in Required;
    assert Required - a.Keys == Required - b.Keys;
    assert a.Keys - Recognized == b.Keys - Recognized;
    if ValidateArgs(a).Ok? {
      assert ValidateArgs(a).value == ValidateArgs(b).value;
    }
  }

  /**
   * A call `DataSet.__init__(self, ds_name, data_path, **kwargs)`: binding fails first when a
   * key of `kwargs` names one of the three positional parameters; otherwise the outcome is
   * the keyword-argument validation of the body.
   */
  function InitArgs(kwargs: map<string, Value>): (r: Result<map<string, Value>, DatasetError>)
    ensures (r.Err? && r.error.DuplicateArgument?) <==> exists k :: k in kwargs && k in InitParams
    ensures r.Err? && r.error.DuplicateArgument? ==>
      forall k :: k in r.error.names <==> k in kwargs && k in InitParams
    ensures (forall k :: k in kwargs ==> k !in InitParams) ==> r == ValidateArgs(kwargs)
  {
    var clash := kwargs.Keys * InitParams;
    if clash != {} then Err(DuplicateArgument(clash))
    else
      assert forall k :: k in kwargs && k in InitParams ==> k in clash;
      ValidateArgs(kwargs)
  }

  /** Every attribute set `__init__` accepts is free of its parameter names. */
  lemma RecognizedAreNotParams()
    ensures Recognized !! InitParams
  {
  }

  /**
   * The override of `k` fails `override_args`' type check: `k` has a default, neither
   * value is `None`, and the override is not an instance of the default's type.
   */
  predicate Mismatch(defaults: map<string, Value>, kwargs: map<string, Value>, k: string)
    ensures Mismatch(defaults, kwargs, k) <==>
      && k in kwargs && k in defaults
      && defaults[k] != NoneValue && kwargs[k] != NoneValue
      && TypeOf(kwargs[k]) != TypeOf(defaults[k])
      && !(kwargs[k].BoolValue? && defaults[k].IntValue?)
  {
    && k in kwargs && k in defaults
    && defaults[k] != NoneValue && kwargs[k] != NoneValue
    && !IsInstance(kwargs[k], TypeOf(defaults[k]))
  }

  /** `k` is the first key of `order` whose override fails the type check. */
  ghost predicate IsFirstMismatch(defaults: map<string, Value>, kwargs: map<string, Value>,
                                  order: seq<string>, k: string)
  {
    exists i :: 0 <= i < |order| && order[i] == k && Mismatch(defaults, kwargs, k) &&
      forall j :: 0 <= j < i ==> !Mismatch(defaults, kwargs, order[j])
  }

  /** The key at which a scan of `order` raises, if any. */
  function FirstMismatch(defaults: map<string, Value>, kwargs: map<string, Value>,
                         order: seq<string>): (r: Option<string>)
    ensures r.None? <==> forall i :: 0 <= i < |order| ==> !Mismatch(defaults, kwargs, order[i])
    ensures r.Some? ==> IsFirstMismatch(defaults, kwargs, order, r.value)
  {
    if order == [] then None
    else if Mismatch(defaults, kwargs, order[0]) then
      assert IsFirstMismatch(defaults, kwargs, order, order[0]) by {
        // Names the witness `i := 0` of the existential in `IsFirstMismatch`.
        assert order[0] == order[0];
      }
      Some(order[0])
    else
      var r := FirstMismatch(defaults, kwargs, order[1..]);
      assert forall i :: 1 <= i < |order| ==> order[i] == order[1..][i - 1];
      assert r.Some? ==> IsFirstMismatch(defaults, kwargs, order, r.value) by {
        if r.Some? {
          var i :| 0 <= i < |order[1..]| && order[1..][i] == r.value
            && Mismatch(defaults, kwargs, r.value)
            && forall j :: 0 <= j < i ==> !Mismatch(defaults, kwargs, order[1..][j]);
          assert order[i + 1] == r.value;
        }
      }
      r
  }

  /**
   * What `override_args(defaults, kwargs)` returns or raises: the `WrongType` error for the
   * first key, in the caller's order, whose override fails the type check; otherwise the
   * merge `{**defaults, **kwargs}`, in which the caller's value always wins.
   */
  function Overridden(defaults: map<string, Value>, kwargs: Kwargs)
    : (r: Result<map<string, Value>, DatasetError>)
    requires kwargs.Valid()
    ensures r.Err? <==> exists k :: k in kwargs.items && Mismatch(defaults, kwargs.items, k)
    ensures r.Err? ==> && r.error.WrongType?
                       && IsFirstMismatch(defaults, kwargs.items, kwargs.order, r.error.arg)
                       && r.error.reqType == TypeOf(defaults[r.error.arg])
    ensures r.Ok? ==> r.value.Keys == defaults.Keys + kwargs.items.Keys
    ensures r.Ok? ==> forall k :: k in kwargs.items ==> r.value[k] == kwargs.items[k]
    ensures r.Ok? ==> forall k :: k in defaults && k !in kwargs.items ==> r.value[k] == defaults[k]
  {
    match FirstMismatch(defaults, kwargs.items, kwargs.order)
    case Some(k) => Err(WrongType(k, TypeOf(defaults[k])))
    case None =>
      assert forall k :: k in kwargs.items ==> !Mismatch(defaults, kwargs.items, k) by {
        forall k | k in kwargs.items ensures !Mismatch(defaults, kwargs.items, k) {
          var i :| 0 <= i < |kwargs.order| && kwargs.order[i] == k;
        }
      }
      Ok(defaults + kwargs.items)
  }

  /** `DataSet.override_args`: a loop over the caller's keys that raises at the first mismatch. */
  method OverrideArgs(defaults: map<string, Value>, kwargs: Kwargs)
    returns (r: Result<map<string, Value>, DatasetError>)
    requires kwargs.Valid()
    ensures r == Overridden(defaults, kwargs)
  {
    var i := 0;
    while i < |kwargs.order|
      invariant 0 <= i <= |kwargs.order|
      invariant FirstMismatch(defaults, kwargs.items, kwargs.order)
             == FirstMismatch(defaults, kwargs.items, kwargs.order[i..])
    {
      var k := kwargs.order[i];
      assert kwargs.order[i..][0] == k && kwargs.order[i..][1..] == kwargs.order[i + 1..];
      if k in defaults {
        var noNones := defaults[k] != NoneValue && kwargs.items[k] != NoneValue;
        if noNones && !IsInstance(kwargs.items[k], TypeOf(defaults[k])) {
          return Err(WrongType(k, TypeOf(defaults[k])));
        }
      }
      i := i + 1;
    }
    return Ok(defaults + kwargs.items);
  }

  /** With no overrides the defaults come back unchanged. */
  lemma NoOverridesKeepDefaults(defaults: map<string, Value>)
    ensures NoKwargs.Valid()
    ensures Overridden(defaults, NoKwargs) == Ok(defaults)
  {
    assert defaults + NoKwargs.items == defaults;
  }

  /**
   * Two dicts with the same mismatching keys make a scan raise at the same key; this follows
   * from the scan's contract, which pins down the first mismatch.
   */
  lemma SameMismatchesSameFirst(defaults: map<string, Value>,
                                a: map<string, Value>, b: map<string, Value>, order: seq<string>)
    requires forall i :: 0 <= i < |order| ==> Mismatch(defaults, a, order[i]) == Mismatch(defaults, b, order[i])
    ensures FirstMismatch(defaults, a, order) == FirstMismatch(defaults, b, order)
  {
  }

  /**
   * A key with no default, or with a `None` default, is never type-checked: whatever value
   * the caller gives it, the merge fails or succeeds exactly as before, with the same error,
   * and a successful merge holds the new value there and nothing else changed.
   */
  lemma UncheckedKeyAcceptsAnyValue(defaults: map<string, Value>, kwargs: Kwargs, k: string, v: Value)
    requires kwargs.Valid() && k in kwargs.items
    requires k !in defaults || defaults[k] == NoneValue
    ensures Kwargs(kwargs.order, kwargs.items[k := v]).Valid()
    ensures var changed := Overridden(defaults, Kwargs(kwargs.order, kwargs.items[k := v]));
            var before := Overridden(defaults, kwargs);
            && (changed.Err? <==> before.Err?)
            && (changed.Err? ==> changed == before)
            && (changed.Ok? ==> changed.value == before.value[k := v])
  {
    var items' := kwargs.items[k := v];
    assert forall key :: key in items' <==> key in kwargs.order;
    SameMismatchesSameFirst(defaults, kwargs.items, items', kwargs.order);
  }

  /** An explicit `None` override always passes the type check and replaces the default. */
  lemma NoneOverrideAccepted(defaults: map<string, Value>, kwargs: Kwargs, k: string)
    requires kwargs.Valid() && k in kwargs.items && kwargs.items[k] == NoneValue
    ensures !Mismatch(defaults, kwargs.items, k)
    ensures Overridden(defaults, kwargs).Ok? ==> Overridden(defaults, kwargs).value[k] == NoneValue
  {
  }

  /**
   * The full keyword-argument path of a variant's constructor, called as
   * `Variant(data_path, [custom_grouping,] **kwargs)`. `params` are the constructor's own
   * named parameters; a caller key naming one of them fails binding. Otherwise the defaults
   * are merged with the caller's overrides by `override_args` and the merge is passed to
   * `DataSet.__init__`, whose binding rejects a `ds_name` key that came through the merge.
   */
  function VariantArgs(params: set<string>, defaults: map<string, Value>, kwargs: Kwargs)
    : (r: Result<map<string, Value>, DatasetError>)
    requires kwargs.Valid()
    ensures kwargs.items.Keys * params != {} ==> r == Err(DuplicateArgument(kwargs.items.Keys * params))
    ensures kwargs.items.Keys !! params && Overridden(defaults, kwargs).Err? ==> r == Overridden(defaults, kwargs)
    ensures r.Ok? <==>
      && kwargs.items.Keys !! params
      && (forall k :: k in kwargs.items ==> !Mismatch(defaults, kwargs.items, k))
      && (defaults.Keys + kwargs.items.Keys) !! InitParams
      && Required <= defaults.Keys + kwargs.items.Keys <= Recognized
    ensures r.Ok? ==> r.value.Keys == Recognized
    ensures r.Ok? ==> forall k :: k in Recognized ==>
      r.value[k] == if k in kwargs.items then kwargs.items[k] else if k in defaults then defaults[k] else NoneValue
  {
    var clash := kwargs.items.Keys * params;
    if clash != {} then Err(DuplicateArgument(clash))
    else
      match Overridden(defaults, kwargs)
      case Err(e) => Err(e)
      case Ok(merged) =>
        assert merged.Keys == defaults.Keys + kwargs.items.Keys;
        RecognizedAreNotParams();
        InitArgs(merged)
  }

  /**
   * When the defaults supply every required argument, a caller key outside the eight
   * recognised names always makes the constructor fail. When no caller key names a
   * parameter of the constructor or of `__init__` and the merge succeeds, the failure is
   * `__init__`'s unrecognised-arguments error, and it names that key.
   */
  lemma UnknownKeyRejected(params: set<string>, defaults: map<string, Value>, kwargs: Kwargs, k: string)
    requires kwargs.Valid() && Required <= defaults.Keys && defaults.Keys !! InitParams
    requires k in kwargs.items && k !in Recognized
    ensures VariantArgs(params, defaults, kwargs).Err?
    ensures (forall key :: key in kwargs.items ==> key !in params && key !in InitParams) &&
            Overridden(defaults, kwargs).Ok? ==>
      && VariantArgs(params, defaults, kwargs).error.UnrecognizedArgs?
      && k in VariantArgs(params, defaults, kwargs).error.extra
  {
    if kwargs.items.Keys * params == {} && Overridden(defaults, kwargs).Ok? {
      var merged := Overridden(defaults, kwargs).value;
      assert Required <= merged.Keys && k in merged;
      if merged.Keys * InitParams == {} {
        assert InitArgs(merged) == ValidateArgs(merged);
      }
    }
  }

  /**
   * A caller key naming a parameter of the constructor makes it fail binding, reporting
   * that key; a `ds_name` key that passes the merge makes `__init__`'s binding fail.
   */
  lemma ReservedKeyRejected(params: set<string>, defaults: map<string, Value>, kwargs: Kwargs, k: string)
    requires kwargs.Valid() && k in kwargs.items && (k in params || k in InitParams)
    ensures k in params ==>
      && VariantArgs(params, defaults, kwargs).Err?
      && VariantArgs(params, defaults, kwargs).error.DuplicateArgument?
      && k in VariantArgs(params, defaults, kwargs).error.names
    ensures k in InitParams && kwargs.items.Keys !! params && Overridden(defaults, kwargs).Ok? ==>
      && VariantArgs(params, defaults, kwargs).Err?
      && VariantArgs(params, defaults, kwargs).error.DuplicateArgument?
      && k in VariantArgs(params, defaults, kwargs).error.names
  {
    if k in params {
      assert k in kwargs.items.Keys * params;
    } else if kwargs.items.Keys !! params && Overridden(defaults, kwargs).Ok? {
      var merged := Overridden(defaults, kwargs).value;
      assert kwargs.items.Keys * params == {};
      assert k in merged && k in InitParams;
      assert InitArgs(merged).Err? && InitArgs(merged).error.DuplicateArgument?;
      assert VariantArgs(params, defaults, kwargs) == InitArgs(merged);
    }
  }

  /** A recognised argument the caller supplies is stored as given, whatever the default. */
  lemma CallerValueStored(params: set<string>, defaults: map<string, Value>, kwargs: Kwargs, k: string)
    requires kwargs.Valid() && k in kwargs.items && k in Recognized
    ensures VariantArgs(params, defaults, kwargs).Ok? ==>
      VariantArgs(params, defaults, kwargs).value[k] == kwargs.items[k]
  {
    if VariantArgs(params, defaults, kwargs).Ok? {
      var merged := Overridden(defaults, kwargs).value;
      assert k in merged && merged[k] == kwargs.items[k];
    }
  }

  /** A recognised argument the caller leaves out keeps its default, or `None` without one. */
  lemma DefaultValueStored(params: set<string>, defaults: map<string, Value>, kwargs: Kwargs, k: string)
    requires kwargs.Valid() && k !in kwargs.items && k in Recognized
    ensures VariantArgs(params, defaults, kwargs).Ok? ==>
      VariantArgs(params, defaults, kwargs).value[k] == if k in defaults then defaults[k] else NoneValue
  {
    if VariantArgs(params, defaults, kwargs).Ok? {
      var merged := Overridden(defaults, kwargs).value;
      assert k in defaults ==> k in merged && merged[k] == defaults[k];
      assert k !in defaults ==> k !in merged;
    }
  }
}

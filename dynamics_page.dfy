/**
 * The Dynamics step page of the React wizard (react_version/src/pages/Dynamics.js): it shows a
 * loading view until the store has a dynamics section, seeds the dynamics form with that
 * section, writes the form's output into it on submit, and gates Next on `diff_opt_arr`.
 */
module DynamicsPage {
  import opened Wrappers
  import opened JsValue
  import WizardConfig
  import DynamicsForm
  import PhysicsPage

  /** `!globalConfig || !globalConfig.dynamics`; the store is always an object, so only the section matters. */
  predicate Loading(config: Object)
  {
    !Truthy(Get(config, "dynamics"))
  }

  /** The list the gate reads: `globalConfig.dynamics.diff_opt_arr`. */
  function Diffusion(config: Object): Value
  {
    Prop(Get(config, "dynamics"), "diff_opt_arr")
  }

  /** `isNextDisabled`: the list is missing, or its length is 0, or its element 0 is undefined. */
  predicate NextDisabled(config: Object)
  {
    var arr := Diffusion(config);
    !Truthy(arr) || Prop(arr, "length") == Int(0) || Index(arr, 0) == Undef
  }

  /** handleSubmit: `updateConfigSection('dynamics', dynamicsDataFromForm)`. */
  function Submit(config: Object, form: Object): Object
  {
    WizardConfig.UpdateConfigSection(config, "dynamics", Obj(form))
  }

  // ----- properties -----

  /**
   * For an array or a string the length test is implied by the element test, so the page's
   * gate is the form's own test of `diff_opt_arr`.
   */
  lemma NextGate(config: Object)
    requires !Diffusion(config).Obj?
    ensures NextDisabled(config) <==> DynamicsForm.Unset(Diffusion(config))
  {
    var arr := Diffusion(config);
    if Truthy(arr) && Prop(arr, "length") == Int(0) {
      assert Length(arr) == Int(0);
      assert Index(arr, 0) == Undef;
    }
  }

  /** A diffusion code 0 enables Next, where a microphysics code 0 keeps the Physics page's Next disabled. */
  lemma ZeroCodeGates(config: Object)
    requires Get(config, "dynamics") == Obj(map["diff_opt_arr" := Arr([Int(0)])])
    requires Get(config, "physics") == Obj(map["mp_physics_arr" := Arr([Int(0)])])
    ensures !NextDisabled(config)
    ensures PhysicsPage.NextDisabled(config)
  {
    assert Diffusion(config) == Arr([Int(0)]);
    assert PhysicsPage.Microphysics(config) == Arr([Int(0)]);
  }

  /**
   * Submit writes each field of the form verbatim into the dynamics section, keeps the
   * section's other fields, and leaves every other section alone.
   */
  lemma SubmitWritesDynamics(config: Object, form: Object)
    ensures Submit(config, form).Keys == config.Keys + {"dynamics"}
    ensures forall k :: k in config && k != "dynamics" ==> Submit(config, form)[k] == config[k]
    ensures forall k :: k in form ==> Prop(Get(Submit(config, form), "dynamics"), k) == form[k]
    ensures forall k :: k !in form && k != "length" ==>
              Prop(Get(Submit(config, form), "dynamics"), k) == Prop(Get(config, "dynamics"), k)
  {
    var old_ := Get(config, "dynamics");
    forall k | k !in form && k != "length"
      ensures Prop(Get(Submit(config, form), "dynamics"), k) == Prop(old_, k)
    {
      PropOfSpread(old_, k);
    }
  }

  /** After any submit the loading view is gone: the dynamics section is an object. */
  lemma SubmitEndsLoading(config: Object, form: Object)
    ensures !Loading(Submit(config, form))
  {
  }

  /** Submitting values that pass the form's validation, with `diff_opt_arr` an array, enables Next. */
  lemma ValidSubmitEnablesNext(config: Object, form: Object)
    requires DynamicsForm.Valid(form) && Get(form, "diff_opt_arr").Arr?
    ensures !NextDisabled(Submit(config, form))
  {
    SubmitWritesDynamics(config, form);
    assert "diff_opt_arr" in form;
    assert Diffusion(Submit(config, form)) == form["diff_opt_arr"];
    NextGate(Submit(config, form));
  }

  /**
   * The form reseeded from the section a submit wrote gets back the submitted lists, when
   * each of the three is a non-empty array.
   */
  lemma ReseedAfterSubmit(config: Object, form: Object)
    requires forall i :: 0 <= i < |DynamicsForm.Fields| ==>
               var list := Get(form, DynamicsForm.Fields[i].key);
               list.Arr? && |list.items| > 0
    ensures DynamicsForm.InitialValues(Get(Submit(config, form), "dynamics")).Ok?
    ensures forall i :: 0 <= i < |DynamicsForm.Fields| ==>
              Get(DynamicsForm.InitialValues(Get(Submit(config, form), "dynamics")).value, DynamicsForm.Fields[i].key)
              == Get(form, DynamicsForm.Fields[i].key)
  {
    SubmitWritesDynamics(config, form);
    var section := Get(Submit(config, form), "dynamics");
    forall i | 0 <= i < |DynamicsForm.Fields|
      ensures DynamicsForm.Entry(section, DynamicsForm.Fields[i].key, DynamicsForm.Fields[i].fallback)
              == Ok(Get(form, DynamicsForm.Fields[i].key))
    {
      var key := DynamicsForm.Fields[i].key;
      assert key in form;
      DynamicsForm.CopiesList(section, key, DynamicsForm.Fields[i].fallback, form[key].items);
    }
    DynamicsForm.CollectThrows(section, DynamicsForm.Fields);
    forall i | 0 <= i < |DynamicsForm.Fields|
      ensures Get(DynamicsForm.InitialValues(section).value, DynamicsForm.Fields[i].key)
              == Get(form, DynamicsForm.Fields[i].key)
    {
      DynamicsForm.InitialEntry(section, i);
    }
  }

  /** The store's initial dynamics section has `diff_opt_arr` = [1], so Next starts enabled. */
  lemma InitialNextEnabled(config: Object)
    requires Get(config, "dynamics") == Obj(WizardConfig.Dynamics())
    ensures !Loading(config) && !NextDisabled(config)
  {
    assert Diffusion(config) == WizardConfig.Ints([1]);
  }
}

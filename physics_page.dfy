/**
 * The Physics step page of the React wizard (react_version/src/pages/Physics.js): it shows a
 * loading view until the store has a physics section, seeds the physics form with that
 * section, writes the form's output into it on submit, and gates Next on `mp_physics_arr`.
 */
module PhysicsPage {
  import opened Wrappers
  import opened Decimals
  import opened JsValue
  import WizardConfig
  import PhysicsForm

  /** `!globalConfig || !globalConfig.physics`; the store is always an object, so only the section matters. */
  predicate Loading(config: Object)
  {
    !Truthy(Get(config, "physics"))
  }

  /** The list the gate reads: `globalConfig.physics.mp_physics_arr`. */
  function Microphysics(config: Object): Value
  {
    Prop(Get(config, "physics"), "mp_physics_arr")
  }

  /** `isNextDisabled`: the list is missing, or its length is 0, or its element 0 is falsy. */
  predicate NextDisabled(config: Object)
  {
    var arr := Microphysics(config);
    !Truthy(arr) || Prop(arr, "length") == Int(0) || !Truthy(Index(arr, 0))
  }

  /** handlePhysicsSubmit: `updateConfigSection('physics', physicsDataFromForm)`. */
  function Submit(config: Object, form: Object): Object
  {
    WizardConfig.UpdateConfigSection(config, "physics", Obj(form))
  }

  // ----- properties -----

  /**
   * For an array or string the length test is implied by the element test: Next is
   * disabled exactly when the list is missing or its element 0 is falsy.
   */
  lemma NextGate(config: Object)
    requires !Microphysics(config).Obj?
    ensures NextDisabled(config) <==> !Truthy(Microphysics(config)) || !Truthy(Index(Microphysics(config), 0))
  {
    var arr := Microphysics(config);
    if Truthy(arr) && Prop(arr, "length") == Int(0) {
      assert Length(arr) == Int(0);
      assert Index(arr, 0) == Undef;
    }
  }

  /** An object posing as the list shows the length test is not redundant in general. */
  lemma LengthTestMatters()
    ensures var section := Obj(map["mp_physics_arr" := Obj(map["length" := Int(0), "0" := Int(8)])]);
            NextDisabled(map["physics" := section])
            && Truthy(Index(Microphysics(map["physics" := section]), 0))
  {
    var list := Obj(map["length" := Int(0), "0" := Int(8)]);
    var config := map["physics" := Obj(map["mp_physics_arr" := list])];
    assert Microphysics(config) == list;
    assert Prop(list, "length") == Int(0);
    assert NatToDigits(0) == "0";
    assert Index(list, 0) == Int(8);
  }

  /**
   * Submit writes each field of the form verbatim into the physics section, keeps the
   * section's other fields, and leaves every other section alone.
   */
  lemma SubmitWritesPhysics(config: Object, form: Object)
    ensures Submit(config, form).Keys == config.Keys + {"physics"}
    ensures forall k :: k in config && k != "physics" ==> Submit(config, form)[k] == config[k]
    ensures forall k :: k in form ==> Prop(Get(Submit(config, form), "physics"), k) == form[k]
    ensures forall k :: k !in form && k != "length" ==>
              Prop(Get(Submit(config, form), "physics"), k) == Prop(Get(config, "physics"), k)
  {
    var old_ := Get(config, "physics");
    forall k | k !in form && k != "length"
      ensures Prop(Get(Submit(config, form), "physics"), k) == Prop(old_, k)
    {
      PropOfSpread(old_, k);
    }
  }

  /** After any submit the loading view is gone: the physics section is an object. */
  lemma SubmitEndsLoading(config: Object, form: Object)
    ensures !Loading(Submit(config, form))
  {
  }

  /** A submit whose values do not include `mp_physics_arr` leaves the Next gate as it was. */
  lemma SubmitKeepsGate(config: Object, form: Object)
    requires "mp_physics_arr" !in form
    ensures NextDisabled(Submit(config, form)) == NextDisabled(config)
  {
    SubmitWritesPhysics(config, form);
    assert Microphysics(Submit(config, form)) == Microphysics(config);
  }

  /**
   * The page seeds the form with the physics section itself, and the selects change only
   * the six scalar fields; so what the form submits carries the section's own
   * `mp_physics_arr`, if any, and a form submit leaves the Next gate as it was.
   */
  lemma FormSubmitKeepsGate(config: Object, section: Object, changes: seq<(string, string)>)
    requires Get(config, "physics") == Obj(section)
    requires forall i :: 0 <= i < |changes| ==> changes[i].0 in PhysicsForm.Fields
    ensures NextDisabled(Submit(config, PhysicsForm.AfterChanges(section, changes))) == NextDisabled(config)
  {
    PhysicsForm.ListNotAField();
    PhysicsForm.ChangesKeepOtherKeys(section, changes, "mp_physics_arr");
    SubmitOfSameList(config, PhysicsForm.AfterChanges(section, changes));
  }

  /** A submit whose `mp_physics_arr` is the one the store already shows leaves the gate as it was. */
  lemma SubmitOfSameList(config: Object, form: Object)
    requires Get(form, "mp_physics_arr") == Microphysics(config)
    ensures NextDisabled(Submit(config, form)) == NextDisabled(config)
  {
    if "mp_physics_arr" in form {
      SubmitWritesPhysics(config, form);
      assert Microphysics(Submit(config, form)) == form["mp_physics_arr"];
    } else {
      SubmitKeepsGate(config, form);
    }
  }

  /** A section holding only `_arr` lists, as the store starts with, cannot seed the form's selects. */
  lemma ListSectionDoesNotRender(section: Object)
    requires "mp_physics" !in section
    ensures PhysicsForm.SelectDefaults(section, PhysicsForm.Fields) == Err(TypeError)
  {
    PhysicsForm.MissingFieldThrows(section, "mp_physics");
  }

  /** The initial store holds the initial physics section. */
  lemma InitialSection()
    ensures Get(WizardConfig.InitialState(), "physics") == Obj(WizardConfig.Physics())
  {
  }

  /** The initial physics section has the list [8] and no scalar `mp_physics`, so it cannot seed the form's selects. */
  lemma InitialList()
    ensures Prop(Obj(WizardConfig.Physics()), "mp_physics_arr") == WizardConfig.Ints([8])
    ensures "mp_physics" !in WizardConfig.Physics()
  {
  }

  /** A store holding the initial physics section, whose `mp_physics_arr` is [8], starts with Next enabled. */
  lemma InitialNextEnabled(config: Object)
    requires Get(config, "physics") == Obj(WizardConfig.Physics())
    ensures !Loading(config) && !NextDisabled(config)
  {
    InitialList();
  }
}

/**
 * The Review step of the React wizard (react_version/src/pages/Review.js): read-only display
 * of the stored sections, with fallbacks for what is missing, and the completeness test
 * that enables generation.
 */
module Review {
  import opened Wrappers
  import opened Decimals
  import opened JsValue
  import opened Options
  import DomainPage
  import PhysicsPage
  import PhysicsForm
  import DynamicsPage

  const NotSet := "未设置"
  const OnText := "开启"
  const OffText := "关闭"

  /** `arr && arr.length > index && arr[index] !== undefined && arr[index] !== null`. */
  predicate Shown(arr: Value, index: nat)
  {
    Truthy(arr) && GreaterThan(Prop(arr, "length"), index) && !Nullish(Index(arr, index))
  }

  /** getDisplayValue: element `index` as a string when present, the fallback otherwise. */
  function DisplayValue(arr: Value, index: nat, fallback: string): (r: string)
    ensures !Shown(arr, index) ==> r == fallback
    ensures Shown(arr, index) ==> r == ToJsString(Index(arr, index))
  {
    if Shown(arr, index) then ToJsString(Index(arr, index)) else fallback
  }

  /** getBooleanDisplayValue: on or off by the element's truthiness when present, the fallback otherwise. */
  function BooleanDisplayValue(arr: Value, index: nat): (r: string)
    ensures r == NotSet <==> !Shown(arr, index)
    ensures Shown(arr, index) ==> (r == OnText <==> Truthy(Index(arr, index)))
  {
    if Shown(arr, index) then (if Truthy(Index(arr, index)) then OnText else OffText) else NotSet
  }

  /** The not-loaded view: a falsy store, or one whose only key is a truthy `_lastUpdated`. */
  predicate NotLoaded(config: Value)
  {
    !Truthy(config) || (config.Obj? && |config.fields.Keys| == 1 && Truthy(Get(config.fields, "_lastUpdated")))
  }

  /** `isConfigComplete` (lines 51-59), read property by property. */
  predicate Complete(config: Object)
  {
    var tc := Get(config, "time_control");
    var ds := Get(config, "domain_setup");
    var ph := Get(config, "physics");
    var dy := Get(config, "dynamics");
    Truthy(tc) && Truthy(Prop(tc, "start_date_str_arr")) && Truthy(Index(Prop(tc, "start_date_str_arr"), 0))
    && Truthy(ds) && Truthy(Prop(ds, "e_we_arr")) && Index(Prop(ds, "e_we_arr"), 0) != Undef
    && Truthy(ph) && Truthy(Prop(ph, "mp_physics_arr")) && Index(Prop(ph, "mp_physics_arr"), 0) != Undef
    && Truthy(dy) && Truthy(Prop(dy, "diff_opt_arr")) && Index(Prop(dy, "diff_opt_arr"), 0) != Undef
  }

  /** The generate button is disabled exactly when the store is not complete. */
  predicate GenerateDisabled(config: Object)
  {
    !Complete(config)
  }

  /** `table[value] || value`: the option's label, or the displayed value itself. */
  function Label(t: Table, value: string): (r: string)
    ensures (exists i :: 0 <= i < |t| && Key(t[i].0) == value && t[i].1 != "") || r == value
  {
    var l := Lookup(t, value);
    if Truthy(l) then l.s else value
  }

  /** The row of a physics or dynamics field: the label of `section[field + "_arr"]` element 0. */
  function OptionRow(config: Object, section: string, field: string, t: Table): string
  {
    Label(t, DisplayValue(Prop(Get(config, section), field + "_arr"), 0, NotSet))
  }

  /** The projection row: `PROJECTIONS[getDisplayValue(map_proj_arr)] || "未设置"`. */
  function ProjectionRow(config: Object): (r: string)
  {
    var l := Lookup(Projections, DisplayValue(Prop(Get(config, "domain_setup"), "map_proj_arr"), 0, NotSet));
    if Truthy(l) then l.s else NotSet
  }

  /** The readable form of a field name: `key.replace(/_/g, ' ').replace(/\b\w/g, l => l.toUpperCase())`. */
  function ReadableKey(key: string): (r: string)
    ensures |r| == |key|
  {
    Capitalize(Spaced(key), true)
  }

  /** `replace(/_/g, ' ')` */
  function Spaced(key: string): (r: string)
    ensures |r| == |key|
    ensures forall i :: 0 <= i < |r| ==> r[i] == if key[i] == '_' then ' ' else key[i]
  {
    if key == [] then [] else [if key[0] == '_' then ' ' else key[0]] + Spaced(key[1..])
  }

  /** `\w` */
  predicate WordChar(c: char)
  {
    'a' <= c <= 'z' || 'A' <= c <= 'Z' || '0' <= c <= '9' || c == '_'
  }

  /** `toUpperCase` on a single ASCII character. */
  function Upper(c: char): (u: char)
    ensures 'a' <= c <= 'z' ==> 'A' <= u <= 'Z' && u as int == c as int - 32
    ensures !('a' <= c <= 'z') ==> u == c
  {
    if 'a' <= c <= 'z' then (c as int - 32) as char else c
  }

  /** `replace(/\b\w/g, l => l.toUpperCase())` on s, where atBoundary says whether s starts the string or follows a non-word character. */
  function Capitalize(s: string, atBoundary: bool): (r: string)
    ensures |r| == |s|
  {
    if s == [] then []
    else
      var c := if atBoundary && WordChar(s[0]) then Upper(s[0]) else s[0];
      var rest := Capitalize(s[1..], !WordChar(s[0]));
      [c] + rest
  }

  // ----- properties -----

  /** For an array, an element is shown exactly when the index is in range and the element is neither null nor undefined. */
  lemma ShownInArray(xs: seq<Value>, index: nat)
    ensures Shown(Arr(xs), index) <==> index < |xs| && !Nullish(xs[index])
  {
    assert Prop(Arr(xs), "length") == Int(|xs|);
  }

  /** A stored code is displayed as the key of that code, so its label is found in the table. */
  lemma CodeShowsLabel(t: Table, i: nat, rest: seq<Value>)
    requires i < |t| && t[i].1 != ""
    requires forall j :: 0 <= j < |t| ==> t[j].0 == t[i].0 ==> j == i
    ensures Label(t, DisplayValue(Arr([Int(t[i].0)] + rest), 0, NotSet)) == t[i].1
  {
    var c := t[i].0;
    var arr := Arr([Int(c)] + rest);
    ShownInArray([Int(c)] + rest, 0);
    assert DisplayValue(arr, 0, NotSet) == ToJsString(Int(c));
    assert ToJsString(Int(c)) == Key(c) by {
      assert FixedString(FromInt(c)) == "" + NatToDigits(c);
    }
    LookupByCode(t, c);
    var j :| 0 <= j < |t| && t[j] == (c, Lookup(t, Key(c)).s);
  }

  /** A displayed value that is not a code of the table is shown as it is. */
  lemma UnknownCodeShowsRaw(t: Table, value: string)
    requires forall i :: 0 <= i < |t| ==> Key(t[i].0) != value
    ensures Label(t, value) == value
  {
  }

  /** The projection row only reads `map_proj_arr`: a section without it shows 未设置, whatever `map_proj` holds. */
  lemma ProjectionNeedsList(config: Object)
    requires !Shown(Prop(Get(config, "domain_setup"), "map_proj_arr"), 0)
    ensures ProjectionRow(config) == NotSet
  {
    assert Lookup(Projections, NotSet) == Undef;
  }

  /** Projection names, as the domain form stores them, are not codes: they also show 未设置. */
  lemma ProjectionNameNotShown(config: Object, name: string)
    requires name in {"lambert", "polar", "mercator", "lat-lon"}
    requires Prop(Get(config, "domain_setup"), "map_proj_arr") == Arr([Str(name)])
    ensures ProjectionRow(config) == NotSet
  {
    ShownInArray([Str(name)], 0);
    assert forall i :: 0 <= i < |Projections| ==> Key(Projections[i].0) != name by {
      forall i | 0 <= i < |Projections|
        ensures Key(Projections[i].0) != name
      {
        assert AllDigits(Key(Projections[i].0));
        assert !IsDigit(name[0]);
      }
    }
  }

  /** The store the Domain, Physics and Dynamics gates let through, with a start date, is complete. */
  lemma GatesImplyComplete(config: Object)
    requires Truthy(Get(config, "time_control"))
    requires Truthy(Index(Prop(Get(config, "time_control"), "start_date_str_arr"), 0))
    requires DomainPage.NextEnabled(config)
    requires !PhysicsPage.NextDisabled(config) && !DynamicsPage.NextDisabled(config)
    ensures Complete(config)
  {
    DomainPage.FirstTruthy(Prop(Get(config, "time_control"), "start_date_str_arr"));
    var ph := Get(config, "physics");
    assert Truthy(ph);
    var dy := Get(config, "dynamics");
    assert Truthy(dy);
  }

  /** Review accepts a microphysics code 0, which the Physics page's gate refuses. */
  lemma ZeroMicrophysicsAccepted(config: Object)
    requires Complete(config)
    ensures Complete(config["physics" := Obj(map["mp_physics_arr" := Arr([Int(0)])])])
    ensures PhysicsPage.NextDisabled(config["physics" := Obj(map["mp_physics_arr" := Arr([Int(0)])])])
  {
    var c := config["physics" := Obj(map["mp_physics_arr" := Arr([Int(0)])])];
    assert Get(c, "time_control") == Get(config, "time_control");
    assert Get(c, "domain_setup") == Get(config, "domain_setup");
    assert Get(c, "dynamics") == Get(config, "dynamics");
    assert PhysicsPage.Microphysics(c) == Arr([Int(0)]);
  }

  /**
   * A physics submit that carries a row's list as the store holds it, or not at all, leaves
   * that row of Review as it was.
   */
  lemma PhysicsRowsIgnoreForm(config: Object, form: Object, field: string, t: Table)
    requires field + "_arr" !in form || form[field + "_arr"] == Prop(Get(config, "physics"), field + "_arr")
    ensures OptionRow(PhysicsPage.Submit(config, form), "physics", field, t) == OptionRow(config, "physics", field, t)
  {
    PhysicsPage.SubmitWritesPhysics(config, form);
    assert field + "_arr" != "length" by {
      assert |field + "_arr"| >= 4;
      if |field + "_arr"| == 6 {
        assert (field + "_arr")[|field|] == '_';
        assert "length"[2] == 'n';
      }
    }
  }

  /**
   * What the physics form submits, seeded with the stored section and changed only on its
   * selects, leaves every physics row of Review as it was.
   */
  lemma PhysicsRowsAfterFormSubmit(config: Object, section: Object, changes: seq<(string, string)>, field: string, t: Table)
    requires Get(config, "physics") == Obj(section)
    requires forall i :: 0 <= i < |changes| ==> changes[i].0 in PhysicsForm.Fields
    ensures OptionRow(PhysicsPage.Submit(config, PhysicsForm.AfterChanges(section, changes)), "physics", field, t)
         == OptionRow(config, "physics", field, t)
  {
    var k := field + "_arr";
    PhysicsForm.ListsNotFields(field);
    PhysicsForm.ChangesKeepOtherKeys(section, changes, k);
    PhysicsRowsIgnoreForm(config, PhysicsForm.AfterChanges(section, changes), field, t);
  }

  /** A store left with only a truthy timestamp shows the not-loaded view. */
  lemma TimestampOnlyNotLoaded(now: int)
    requires now != 0
    ensures NotLoaded(Obj(map["_lastUpdated" := Int(now)]))
  {
    assert map["_lastUpdated" := Int(now)].Keys == {"_lastUpdated"};
  }

  /**
   * The readable form of a key has an underscore as a space, upper-cases a letter that starts
   * the key or follows an underscore or another non-word character, and keeps every other
   * character.
   */
  lemma ReadableKeyWords(key: string)
    ensures forall i :: 0 <= i < |key| && key[i] == '_' ==> ReadableKey(key)[i] == ' '
    ensures forall i :: 0 <= i < |key| && key[i] != '_' && (i == 0 || !WordChar(key[i - 1]) || key[i - 1] == '_') ==>
              ReadableKey(key)[i] == Upper(key[i])
    ensures forall i :: 0 < i < |key| && key[i] != '_' && WordChar(key[i - 1]) && key[i - 1] != '_' ==>
              ReadableKey(key)[i] == key[i]
  {
    var spaced := Spaced(key);
    CapitalizeWordStarts(spaced, true);
    forall i | 0 <= i < |key|
      ensures spaced[i] == (if key[i] == '_' then ' ' else key[i])
      ensures WordChar(spaced[i]) <==> WordChar(key[i]) && key[i] != '_'
    {
    }
    var r := ReadableKey(key);
    assert r == Capitalize(spaced, true);
    forall i | 0 <= i < |key| && key[i] == '_'
      ensures ReadableKey(key)[i] == ' '
    {
      assert spaced[i] == ' ' && !WordChar(' ');
      if i == 0 {
        assert r[0] == spaced[0];
      } else {
        assert r[i] == spaced[i];
      }
    }
    forall i | 0 <= i < |key| && key[i] != '_' && (i == 0 || !WordChar(key[i - 1]) || key[i - 1] == '_')
      ensures ReadableKey(key)[i] == Upper(key[i])
    {
      assert spaced[i] == key[i];
      if i == 0 {
        assert r[0] == if WordChar(spaced[0]) then Upper(spaced[0]) else spaced[0];
      } else {
        assert !WordChar(spaced[i - 1]);
        assert r[i] == if WordChar(spaced[i]) && !WordChar(spaced[i - 1]) then Upper(spaced[i]) else spaced[i];
      }
    }
    forall i | 0 < i < |key| && key[i] != '_' && WordChar(key[i - 1]) && key[i - 1] != '_'
      ensures ReadableKey(key)[i] == key[i]
    {
      assert spaced[i] == key[i];
      assert WordChar(spaced[i - 1]);
      assert r[i] == if WordChar(spaced[i]) && !WordChar(spaced[i - 1]) then Upper(spaced[i]) else spaced[i];
    }
  }

  /** Capitalize upper-cases exactly the word characters at a word boundary. */
  lemma {:induction false} CapitalizeWordStarts(s: string, atBoundary: bool)
    ensures |s| > 0 ==> Capitalize(s, atBoundary)[0] == if atBoundary && WordChar(s[0]) then Upper(s[0]) else s[0]
    ensures forall i {:trigger Capitalize(s, atBoundary)[i]} :: 0 < i < |s| ==>
              Capitalize(s, atBoundary)[i] == if WordChar(s[i]) && !WordChar(s[i - 1]) then Upper(s[i]) else s[i]
  {
    if s != [] {
      var rest := s[1..];
      CapitalizeWordStarts(rest, !WordChar(s[0]));
      forall i | 0 < i < |s|
        ensures Capitalize(s, atBoundary)[i] == if WordChar(s[i]) && !WordChar(s[i - 1]) then Upper(s[i]) else s[i]
      {
        var r := Capitalize(rest, !WordChar(s[0]));
        assert Capitalize(s, atBoundary)[i] == r[i - 1];
        assert rest[i - 1] == s[i];
        if i == 1 {
          assert r[0] == if !WordChar(s[0]) && WordChar(rest[0]) then Upper(rest[0]) else rest[0];
        } else {
          assert rest[i - 2] == s[i - 1];
          assert r[i - 1] == if WordChar(rest[i - 1]) && !WordChar(rest[i - 2]) then Upper(rest[i - 1]) else rest[i - 1];
        }
      }
    }
  }
}

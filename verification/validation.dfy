/** The field constraints declared on AssetCreateRequest and AttributeObject, with the
    meaning chapter 7 ("Built-in Constraint definitions") of Jakarta Bean Validation 3.0
    gives them: @NotBlank rejects null and blank strings, @NotNull rejects null, and
    @Size, @Pattern and @Min accept null. */
module Validation {
  import opened Wrappers
  import opened Text
  import opened Dto

  /** The property a violation is reported against. */
  datatype Field =
    | VersionField
    | NameField
    | ParentIdField
    | RealmField
    | TypeField
    | AttributesField
    | AttributeNameField(key: string)  // the `name` of the attribute stored under `key`

  /** The annotation that failed; each carries its own message. */
  datatype Rule =
    | VersionMin
    | NameBlank
    | NameSize
    | ParentIdPattern
    | RealmBlank
    | RealmSize
    | TypeBlank
    | AttributesNull
    | AttributesSize
    | AttributeNameBlank
    | AttributeNamePattern

  /** One constraint violation: where, and which annotation. */
  datatype Violation = Violation(field: Field, rule: Rule)

  /** The violation is reported against the property that carries its annotation. */
  predicate Declared(v: Violation) {
    match v.rule
    case VersionMin => v.field == VersionField
    case NameBlank | NameSize => v.field == NameField
    case ParentIdPattern => v.field == ParentIdField
    case RealmBlank | RealmSize => v.field == RealmField
    case TypeBlank => v.field == TypeField
    case AttributesNull | AttributesSize => v.field == AttributesField
    case AttributeNameBlank | AttributeNamePattern => v.field.AttributeNameField?
  }

  const MaxNameLength: nat := 1023
  const MaxRealmLength: nat := 255
  const ParentIdLength: nat := 22

  /** The property path as the binding layer prints it. */
  function FieldPath(f: Field): (path: string)
    ensures f.AttributeNameField? ==> path == "attributes[" + f.key + "].name"
  {
    match f
    case VersionField => "version"
    case NameField => "name"
    case ParentIdField => "parentId"
    case RealmField => "realm"
    case TypeField => "type"
    case AttributesField => "attributes"
    case AttributeNameField(key) => "attributes[" + key + "]" + ".name"
  }

  /** The `message` attribute of each annotation. */
  function Message(rule: Rule): string {
    match rule
    case VersionMin => "Version must be 0 or greater"
    case NameBlank => "Asset name cannot be blank."
    case NameSize => "Name must be at most 1023 characters."
    case ParentIdPattern => "ParentId must be 22 alphanumeric characters (A-Z, a-z, 0-9)."
    case RealmBlank => "Realm cannot be blank."
    case RealmSize => "realm must be at most 255 characters."
    case TypeBlank => "Asset type cannot be blank."
    case AttributesNull => "Attributes must not be null"
    case AttributesSize => "At least one attribute is required"
    case AttributeNameBlank => "Attribute name cannot be blank."
    case AttributeNamePattern => "Name must contain only letters, digits, and underscores."
  }

  // ---- The constraints, stated declaratively ----

  predicate NotBlank(s: Option<string>) {
    s.Some? && !IsBlank(s.value)
  }

  predicate SizeAtMost(s: Option<string>, max: nat) {
    s.None? || |s.value| <= max
  }

  predicate AtLeast(v: Option<int>, min: int) {
    v.None? || v.value >= min
  }

  /** `^[0-9A-Za-z]{22}$` matched against the whole string. */
  predicate IsParentId(s: string) {
    |s| == ParentIdLength && forall i :: 0 <= i < |s| ==> IsAlphaNum(s[i])
  }

  /** `^\w+$` matched against the whole string. */
  predicate IsWord(s: string) {
    |s| > 0 && forall i :: 0 <= i < |s| ==> IsWordChar(s[i])
  }

  /** A string matching `^\w+$` is never blank, so @Pattern subsumes @NotBlank on a present name. */
  lemma WordIsNotBlank(s: string)
    ensures IsWord(s) ==> !IsBlank(s)
  {
    if IsWord(s) {
      assert !IsTrimmable(s[0]);
    }
  }

  predicate ValidAttribute(a: Attribute) {
    NotBlank(a.name) && (a.name.None? || IsWord(a.name.value))
  }

  /** The cascade (`@Valid` on the map's values) skips null values. */
  predicate ValidEntries(m: Attributes) {
    forall k :: k in m && m[k].Some? ==> ValidAttribute(m[k].value)
  }

  predicate Valid(r: AssetCreateRequest) {
    && AtLeast(r.version, 0)
    && NotBlank(r.name) && SizeAtMost(r.name, MaxNameLength)
    && (r.parentId.None? || IsParentId(r.parentId.value))
    && NotBlank(r.realm) && SizeAtMost(r.realm, MaxRealmLength)
    && NotBlank(r.assetType)
    && r.attributes.Some? && |r.attributes.value| >= 1
    && ValidEntries(r.attributes.value)
  }

  // ---- The validator: each constraint checked the way the validator implements it ----

  /** Hibernate Validator, the reference implementation, checks @NotBlank as "non-null and
      non-empty after String.trim()"; that is the same as `NotBlank`. */
  lemma NotBlankIsTrimCheck(s: Option<string>)
    ensures NotBlank(s) <==> s.Some? && Trim(s.value) != []
  {
    if s.Some? {
      TrimEmptyIffBlank(s.value);
    }
  }

  /** The violations `check` contributes: none when it holds, one otherwise. */
  function Check(check: bool, field: Field, rule: Rule): set<Violation> {
    if check then {} else {Violation(field, rule)}
  }

  /** The violations of one attribute stored under `key`. A name is valid exactly when it is
      present and matches `^\w+$`; a word is never blank. */
  function AttributeViolations(key: string, a: Attribute): (vs: set<Violation>)
    ensures vs == {} <==> ValidAttribute(a)
    ensures vs == {} <==> a.name.Some? && IsWord(a.name.value)
    ensures forall v :: v in vs ==> v.field == AttributeNameField(key) && Declared(v)
    ensures Violation(AttributeNameField(key), AttributeNameBlank) in vs <==> !NotBlank(a.name)
    ensures Violation(AttributeNameField(key), AttributeNamePattern) in vs <==>
      a.name.Some? && !IsWord(a.name.value)
  {
    WordIsNotBlank(if a.name.Some? then a.name.value else "");
    Check(NotBlank(a.name), AttributeNameField(key), AttributeNameBlank)
    + Check(a.name.None? || IsWord(a.name.value), AttributeNameField(key), AttributeNamePattern)
  }

  /** The violations of every non-null attribute in the map, each under its own key. */
  function EntryViolations(m: Attributes): (vs: set<Violation>)
    ensures vs == {} <==> ValidEntries(m)
    ensures forall k :: k in m && m[k].Some? ==> AttributeViolations(k, m[k].value) <= vs
    ensures forall v :: v in vs ==>
      && v.field.AttributeNameField? && v.field.key in m && m[v.field.key].Some?
      && v in AttributeViolations(v.field.key, m[v.field.key].value)
  {
    var vs := set k, v | k in m && m[k].Some? && v in AttributeViolations(k, m[k].value) :: v;
    EntryViolationsEmpty(m, vs);
    vs
  }

  lemma EntryViolationsEmpty(m: Attributes, vs: set<Violation>)
    requires vs == set k, v | k in m && m[k].Some? && v in AttributeViolations(k, m[k].value) :: v
    ensures vs == {} <==> ValidEntries(m)
  {
    if !ValidEntries(m) {
      var k :| k in m && m[k].Some? && !ValidAttribute(m[k].value);
      var avs := AttributeViolations(k, m[k].value);
      assert avs != {};
      var w :| w in avs;
      assert w in vs;
    }
  }

  /** The violations reported under `attributes` and under the cascaded attribute names. */
  function AttributesViolations(r: AssetCreateRequest): (vs: set<Violation>)
    ensures vs == {} <==> r.attributes.Some? && |r.attributes.value| >= 1 && ValidEntries(r.attributes.value)
    ensures forall v :: v in vs ==> Declared(v)
    ensures forall v :: v in vs ==>
      || v.field == AttributesField
      || (v.field.AttributeNameField? && r.attributes.Some? && v.field.key in r.attributes.value)
    ensures Violation(AttributesField, AttributesNull) in vs <==> r.attributes.None?
    ensures Violation(AttributesField, AttributesSize) in vs <==>
      r.attributes.Some? && |r.attributes.value| == 0
    ensures r.attributes.Some? ==> forall k :: k in r.attributes.value && r.attributes.value[k].Some? ==>
      AttributeViolations(k, r.attributes.value[k].value) <= vs
    ensures forall v :: v in vs && v.field.AttributeNameField? ==>
      && r.attributes.Some? && v.field.key in r.attributes.value && r.attributes.value[v.field.key].Some?
      && v in AttributeViolations(v.field.key, r.attributes.value[v.field.key].value)
  {
    match r.attributes
    case None => {Violation(AttributesField, AttributesNull)}
    case Some(m) =>
      assert |m| == 0 ==> m == map[];
      Check(|m| >= 1, AttributesField, AttributesSize) + EntryViolations(m)
  }

  /** The violations reported under `name`: @NotBlank and @Size(max = 1023). */
  function NameViolations(r: AssetCreateRequest): (vs: set<Violation>)
    ensures forall v :: v in vs ==> v.field == NameField && (v.rule == NameBlank || v.rule == NameSize)
    ensures vs == {} <==> NotBlank(r.name) && SizeAtMost(r.name, MaxNameLength)
    ensures Violation(NameField, NameBlank) in vs <==> !NotBlank(r.name)
    ensures Violation(NameField, NameSize) in vs <==> !SizeAtMost(r.name, MaxNameLength)
  {
    Check(NotBlank(r.name), NameField, NameBlank) + Check(SizeAtMost(r.name, MaxNameLength), NameField, NameSize)
  }

  /** The violations reported under `realm`: @NotBlank and @Size(max = 255). */
  function RealmViolations(r: AssetCreateRequest): (vs: set<Violation>)
    ensures forall v :: v in vs ==> v.field == RealmField && (v.rule == RealmBlank || v.rule == RealmSize)
    ensures vs == {} <==> NotBlank(r.realm) && SizeAtMost(r.realm, MaxRealmLength)
    ensures Violation(RealmField, RealmBlank) in vs <==> !NotBlank(r.realm)
    ensures Violation(RealmField, RealmSize) in vs <==> !SizeAtMost(r.realm, MaxRealmLength)
  {
    Check(NotBlank(r.realm), RealmField, RealmBlank) + Check(SizeAtMost(r.realm, MaxRealmLength), RealmField, RealmSize)
  }

  /** The violations reported under the request's scalar fields. */
  function ScalarViolations(r: AssetCreateRequest): (vs: set<Violation>)
    ensures forall v :: v in vs ==> !v.field.AttributesField? && !v.field.AttributeNameField?
    ensures forall v :: v in vs ==> Declared(v)
    ensures vs == {} <==>
      && AtLeast(r.version, 0)
      && NotBlank(r.name) && SizeAtMost(r.name, MaxNameLength)
      && (r.parentId.None? || IsParentId(r.parentId.value))
      && NotBlank(r.realm) && SizeAtMost(r.realm, MaxRealmLength)
      && NotBlank(r.assetType)
    ensures Violation(NameField, NameBlank) in vs <==> !NotBlank(r.name)
    ensures Violation(NameField, NameSize) in vs <==> !SizeAtMost(r.name, MaxNameLength)
    ensures Violation(RealmField, RealmBlank) in vs <==> !NotBlank(r.realm)
    ensures Violation(RealmField, RealmSize) in vs <==> !SizeAtMost(r.realm, MaxRealmLength)
    ensures Violation(TypeField, TypeBlank) in vs <==> !NotBlank(r.assetType)
    ensures Violation(VersionField, VersionMin) in vs <==> !AtLeast(r.version, 0)
    ensures Violation(ParentIdField, ParentIdPattern) in vs <==>
      r.parentId.Some? && !IsParentId(r.parentId.value)
  {
    var single := SingleFieldViolations(r);
    var vs := single + NameViolations(r) + RealmViolations(r);
    ScalarViolationsDeclared(r, single, vs);
    ScalarViolationsByRule(r, single, vs);
    ScalarViolationsEmpty(r, single, vs);
    vs
  }

  /** The violations of the three fields that carry one annotation each: `version`, `parentId`
      and `type`. */
  function SingleFieldViolations(r: AssetCreateRequest): (vs: set<Violation>)
    ensures forall v :: v in vs ==> Declared(v) && v.field in {VersionField, ParentIdField, TypeField}
    ensures Violation(TypeField, TypeBlank) in vs <==> !NotBlank(r.assetType)
    ensures Violation(VersionField, VersionMin) in vs <==> !AtLeast(r.version, 0)
    ensures Violation(ParentIdField, ParentIdPattern) in vs <==>
      r.parentId.Some? && !IsParentId(r.parentId.value)
    ensures vs == {} <==>
      AtLeast(r.version, 0) && (r.parentId.None? || IsParentId(r.parentId.value)) && NotBlank(r.assetType)
  {
    Check(AtLeast(r.version, 0), VersionField, VersionMin)
    + Check(r.parentId.None? || IsParentId(r.parentId.value), ParentIdField, ParentIdPattern)
    + Check(NotBlank(r.assetType), TypeField, TypeBlank)
  }

  lemma ScalarViolationsByRule(r: AssetCreateRequest, single: set<Violation>, vs: set<Violation>)
    requires single == SingleFieldViolations(r)
    requires vs == single + NameViolations(r) + RealmViolations(r)
    ensures Violation(NameField, NameBlank) in vs <==> !NotBlank(r.name)
    ensures Violation(NameField, NameSize) in vs <==> !SizeAtMost(r.name, MaxNameLength)
    ensures Violation(RealmField, RealmBlank) in vs <==> !NotBlank(r.realm)
    ensures Violation(RealmField, RealmSize) in vs <==> !SizeAtMost(r.realm, MaxRealmLength)
    ensures Violation(TypeField, TypeBlank) in vs <==> !NotBlank(r.assetType)
    ensures Violation(VersionField, VersionMin) in vs <==> !AtLeast(r.version, 0)
    ensures Violation(ParentIdField, ParentIdPattern) in vs <==>
      r.parentId.Some? && !IsParentId(r.parentId.value)
  {
  }

  lemma ScalarViolationsDeclared(r: AssetCreateRequest, single: set<Violation>, vs: set<Violation>)
    requires single == SingleFieldViolations(r)
    requires vs == single + NameViolations(r) + RealmViolations(r)
    ensures forall v :: v in vs ==> !v.field.AttributesField? && !v.field.AttributeNameField?
    ensures forall v :: v in vs ==> Declared(v)
  {
  }

  lemma ScalarViolationsEmpty(r: AssetCreateRequest, single: set<Violation>, vs: set<Violation>)
    requires single == SingleFieldViolations(r)
    requires vs == single + NameViolations(r) + RealmViolations(r)
    ensures vs == {} <==>
      && AtLeast(r.version, 0)
      && NotBlank(r.name) && SizeAtMost(r.name, MaxNameLength)
      && (r.parentId.None? || IsParentId(r.parentId.value))
      && NotBlank(r.realm) && SizeAtMost(r.realm, MaxRealmLength)
      && NotBlank(r.assetType)
  {
  }

  /** All violations of a request, as the validator reports them: empty exactly for a valid
      request, one per broken annotation, and each against the property that broke it. */
  function Violations(r: AssetCreateRequest): (vs: set<Violation>)
    ensures vs == {} <==> Valid(r)
    ensures forall v :: v in vs ==> Declared(v)
    ensures Violation(NameField, NameBlank) in vs <==> !NotBlank(r.name)
    ensures Violation(RealmField, RealmBlank) in vs <==> !NotBlank(r.realm)
    ensures Violation(TypeField, TypeBlank) in vs <==> !NotBlank(r.assetType)
    ensures Violation(NameField, NameSize) in vs <==> !SizeAtMost(r.name, MaxNameLength)
    ensures Violation(RealmField, RealmSize) in vs <==> !SizeAtMost(r.realm, MaxRealmLength)
    ensures Violation(VersionField, VersionMin) in vs <==> !AtLeast(r.version, 0)
    ensures Violation(ParentIdField, ParentIdPattern) in vs <==>
      r.parentId.Some? && !IsParentId(r.parentId.value)
    ensures Violation(AttributesField, AttributesNull) in vs <==> r.attributes.None?
    ensures Violation(AttributesField, AttributesSize) in vs <==>
      r.attributes.Some? && |r.attributes.value| == 0
    ensures r.attributes.Some? ==> forall k :: k in r.attributes.value && r.attributes.value[k].Some? ==>
      AttributeViolations(k, r.attributes.value[k].value) <= vs
    ensures forall v :: v in vs && v.field.AttributeNameField? ==>
      && r.attributes.Some? && v.field.key in r.attributes.value && r.attributes.value[v.field.key].Some?
      && v in AttributeViolations(v.field.key, r.attributes.value[v.field.key].value)
  {
    var scalar := ScalarViolations(r);
    var attributes := AttributesViolations(r);
    CombinedViolations(r, scalar, attributes);
    CombinedRules(r, scalar, attributes);
    scalar + attributes
  }

  /** Each annotation of the request is reported in the union exactly when it is broken: the
      scalar part never holds an attribute rule and the attribute part never a scalar one. */
  lemma CombinedRules(r: AssetCreateRequest, scalar: set<Violation>, attributes: set<Violation>)
    requires scalar == ScalarViolations(r) && attributes == AttributesViolations(r)
    ensures Violation(NameField, NameBlank) in scalar + attributes <==> !NotBlank(r.name)
    ensures Violation(RealmField, RealmBlank) in scalar + attributes <==> !NotBlank(r.realm)
    ensures Violation(TypeField, TypeBlank) in scalar + attributes <==> !NotBlank(r.assetType)
    ensures Violation(NameField, NameSize) in scalar + attributes <==> !SizeAtMost(r.name, MaxNameLength)
    ensures Violation(RealmField, RealmSize) in scalar + attributes <==> !SizeAtMost(r.realm, MaxRealmLength)
    ensures Violation(VersionField, VersionMin) in scalar + attributes <==> !AtLeast(r.version, 0)
    ensures Violation(ParentIdField, ParentIdPattern) in scalar + attributes <==>
      r.parentId.Some? && !IsParentId(r.parentId.value)
    ensures Violation(AttributesField, AttributesNull) in scalar + attributes <==> r.attributes.None?
    ensures Violation(AttributesField, AttributesSize) in scalar + attributes <==>
      r.attributes.Some? && |r.attributes.value| == 0
  {
  }

  /** What `Violations` promises about the attribute part, proved apart from the scalar part. */
  lemma CombinedViolations(r: AssetCreateRequest, scalar: set<Violation>, attributes: set<Violation>)
    requires scalar == ScalarViolations(r) && attributes == AttributesViolations(r)
    ensures forall v :: v in scalar + attributes ==> Declared(v)
    ensures forall v :: v in scalar + attributes && v.field.AttributeNameField? ==>
      && r.attributes.Some? && v.field.key in r.attributes.value && r.attributes.value[v.field.key].Some?
      && v in AttributeViolations(v.field.key, r.attributes.value[v.field.key].value)
  {
  }

  /** `accessPublicRead` and `path` carry no constraint: changing them changes no violation. */
  lemma UnconstrainedFieldsIgnored(r: AssetCreateRequest, flag: Option<bool>, path: Option<seq<string>>)
    ensures Violations(r.(accessPublicRead := flag, path := path)) == Violations(r)
    ensures Valid(r.(accessPublicRead := flag, path := path)) <==> Valid(r)
  {
  }

  /** An attribute's value, meta, type and timestamp carry no constraint: only its name counts. */
  lemma AttributeNameDecides(key: string, a: Attribute, b: Attribute)
    requires a.name == b.name
    ensures AttributeViolations(key, a) == AttributeViolations(key, b)
  {
  }

  /** A name with any character outside `[A-Za-z0-9_]` (a space, a hyphen) is rejected. */
  lemma NonWordCharacterRejected(key: string, a: Attribute, i: nat)
    requires a.name.Some? && i < |a.name.value| && !IsWordChar(a.name.value[i])
    ensures !ValidAttribute(a)
    ensures Violation(AttributeNameField(key), AttributeNamePattern) in AttributeViolations(key, a)
  {
  }

  /** The map key is never compared with the attribute's own name: a valid attribute may be stored
      under any key of a valid request without making it invalid. */
  lemma KeyIsNotCheckedAgainstName(r: AssetCreateRequest, key: string, a: Attribute)
    requires Valid(r) && ValidAttribute(a)
    ensures Valid(r.(attributes := Some(r.attributes.value[key := Some(a)])))
  {
  }

  /** An invalid attribute is reported at `attributes[<key>].name`, for the key it is stored under. */
  lemma {:induction false} InvalidAttributeReportedUnderKey(r: AssetCreateRequest, key: string)
    requires r.attributes.Some? && key in r.attributes.value
    requires r.attributes.value[key].Some? && !ValidAttribute(r.attributes.value[key].value)
    ensures exists v :: v in Violations(r) && v.field == AttributeNameField(key)
  {
    var avs := AttributeViolations(key, r.attributes.value[key].value);
    var v :| v in avs;
    assert v in Violations(r);
  }

  /** The attribute map the controller tests share. */
  function SampleAttributes(): Attributes {
    map[
      "brightness" := Some(Attribute(Some("brightness"), JNumber(75), JNull, JNull, None)),
      "color" := Some(Attribute(Some("color"), JString("warm_white"), JNull, JNull, None)),
      "status" := Some(Attribute(Some("status"), JString("on"), JNull, JNull, None))]
  }

  /** The smart-bulb request of the controller tests passes validation. */
  lemma SmartBulbRequestIsValid()
    ensures Valid(AssetCreateRequest(
      None, Some("Bedroom Smart Bulb"), None, None, Some("tutku-tenant"), Some("smart_bulb"), None,
      Some(SampleAttributes())))
  {
    assert !IsTrimmable("Bedroom Smart Bulb"[0]);
    assert !IsTrimmable("tutku-tenant"[0]);
    assert !IsTrimmable("smart_bulb"[0]);
    assert IsWord("brightness") && IsWord("color") && IsWord("status");
    assert !IsTrimmable("brightness"[0]) && !IsTrimmable("color"[0]) && !IsTrimmable("status"[0]);
    var m := SampleAttributes();
    assert "brightness" in m;
    assert ValidEntries(m);
  }

  /** The same request with an empty name is rejected under `name`. */
  lemma BlankNameRejected()
    ensures Violation(NameField, NameBlank) in Violations(AssetCreateRequest(
      None, Some(""), None, None, Some("tutku-tenant"), Some("smart_bulb"), None, Some(SampleAttributes())))
  {
  }
}
